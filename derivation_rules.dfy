/**
 * The natural-deduction rules of src/models/derivationRules.js.
 *
 * Every validator is a fixed-order chain of checks. Formulas are compared by
 * their rendered strings, usually after reparsing a child's string or a
 * string built around one (`--(...)`, `-(...)`). Dependencies are compared
 * either as a set against the references' dependencies (the chain check) or,
 * for the rules that discharge an assumption, as an exact sequence.
 *
 * A validator returns Pass, Fail(message) for a thrown Error, or Fault where
 * the source reads a field of `undefined`.
 */
module DerivationRules {
  import opened Wrappers
  import opened Numerals
  import opened StringOrder
  import opened FormulaParser

  /** One line of an argument. */
  datatype Step = Step(dependencies: seq<int>, line: int, formula: Node, notation: string)

  /** `new Set(list)`. */
  function Elems(xs: seq<int>): set<int> {
    set x | x in xs
  }

  const DependenciesIncorrect := "Dependencies are incorrect."

  /** What a thrown parse error makes of a check. */
  function ParseErrorCheck(e: ParseError): (c: Check)
    ensures c != Pass
    ensures c == Fault <==> e == UndefinedElement
  {
    match e
    case NotWellFormed(s) => Fail("Formula is not well-formed: " + s)
    case Ambiguous(t) => Fail("Formula is ambiguous: " + t)
    case UndefinedElement => Fault
  }

  /** `parseFormulaString(s).string`; a parse error becomes the outcome of the check. */
  function Reparse(s: string): (r: Result<string, Check>)
    ensures r.Failure? ==> r.error != Pass
  {
    match ParseFormulaString(s)
    case Success(n) => Success(n.text)
    case Failure(e) => Failure(ParseErrorCheck(e))
  }

  // ---------------------------------------------------------------------
  // Assumptions and the dependency chain
  // ---------------------------------------------------------------------

  const AssumptionMessage := "Assumption Step must rely on only itself."

  /** `validateAssumption`: an assumption depends on itself alone. */
  function ValidateAssumption(step: Step): (r: Check)
    ensures r == Pass <==> step.dependencies == [step.line]
    ensures r != Pass ==> r == Fail(AssumptionMessage)
  {
    if |step.dependencies| != 1 || step.dependencies[0] != step.line then Fail(AssumptionMessage)
    else Pass
  }

  /** The list names exactly as many lines as the set, all of them in it, in string order. */
  predicate ChainOk(deps: seq<int>, refSet: set<int>) {
    |deps| == |refSet| && Elems(deps) <= refSet && StringSorted(deps)
  }

  /**
   * `validateDependencyChain`: as many dependencies as references, none
   * outside the reference set, and the list joined with commas equal to its
   * default (string) sort joined with commas.
   */
  function ValidateDependencyChain(deps: seq<int>, refSet: set<int>): (r: Check)
    ensures r == Pass || r == Fail(DependenciesIncorrect)
    ensures r == Pass <==> ChainOk(deps, refSet)
  {
    var missing := set d | d in deps && d !in refSet;
    var joined := Join(IntStrings(deps), ',');
    var sortedJoined := Join(IntStrings(SortByString(deps)), ',');
    SortFixedIffSorted(deps);
    if |deps| != |refSet| || |missing| != 0 then
      assert |missing| != 0 ==> exists d :: d in missing;
      Fail(DependenciesIncorrect)
    else if joined != sortedJoined then Fail(DependenciesIncorrect)
    else
      assert missing == {};
      assert forall d :: d in deps ==> d in refSet by {
        forall d | d in deps ensures d in refSet {
          assert d !in missing;
        }
      }
      JoinIntsInjective(deps, SortByString(deps));
      Pass
  }

  lemma {:induction false} DistinctCardinality(xs: seq<int>)
    requires NoDuplicates(xs)
    ensures |Elems(xs)| == |xs|
  {
    if xs != [] {
      assert NoDuplicates(xs[1..]) by {
        forall i, j | 0 <= i < j < |xs[1..]| ensures xs[1..][i] != xs[1..][j] {
          assert xs[1..][i] == xs[i + 1] && xs[1..][j] == xs[j + 1];
        }
      }
      DistinctCardinality(xs[1..]);
      assert Elems(xs) == Elems(xs[1..]) + {xs[0]};
      assert xs[0] !in Elems(xs[1..]) by {
        forall j | 0 <= j < |xs[1..]| ensures xs[1..][j] != xs[0] {
          assert xs[1..][j] == xs[j + 1];
        }
      }
    }
  }

  lemma SubsetOfSameSize(a: set<int>, b: set<int>)
    requires a <= b && |a| == |b|
    ensures a == b
  {
    assert a + b == b && a * b == a && a - b == {};
    assert |b - a| == 0;
    assert b - a == {};
    assert b <= a;
  }

  /**
   * For a list without duplicates the chain check accepts exactly when the
   * list names the reference set and is in string order.
   */
  lemma ChainCheckDistinct(deps: seq<int>, refSet: set<int>)
    requires NoDuplicates(deps)
    ensures ValidateDependencyChain(deps, refSet) == Pass <==> Elems(deps) == refSet && StringSorted(deps)
  {
    DistinctCardinality(deps);
    if |deps| == |refSet| && Elems(deps) <= refSet {
      SubsetOfSameSize(Elems(deps), refSet);
    }
  }

  /** A duplicate slips past the length and membership tests. */
  lemma ChainCheckAdmitsDuplicates()
    ensures ValidateDependencyChain([1, 1], {1, 2}) == Pass
  {
    assert Elems([1, 1]) == {1};
    assert IntString(1) == "1";
    assert StringSorted([1, 1]);
  }

  /** Numeric order is not string order: `[9, 10]` fails, `[10, 9]` passes. */
  lemma ChainCheckNumericOrderFails()
    ensures ValidateDependencyChain([9, 10], {9, 10}) == Fail(DependenciesIncorrect)
  {
    NineAfterTen();
    var deps := [9, 10];
    assert !NumLeq(deps[0], deps[1]);
    assert !StringSorted(deps);
  }

  lemma ChainCheckStringOrderPasses()
    ensures ValidateDependencyChain([10, 9], {9, 10}) == Pass
  {
    NineAfterTen();
    var deps := [10, 9];
    assert NumLeq(deps[0], deps[1]);
    assert StringSorted(deps);
    assert Elems(deps) == {9, 10};
  }

  // ---------------------------------------------------------------------
  // Discharging an assumption
  // ---------------------------------------------------------------------

  /** The list without the first occurrence of x. */
  function RemoveFirst(xs: seq<int>, x: int): seq<int> {
    if xs == [] then []
    else if xs[0] == x then xs[1..]
    else [xs[0]] + RemoveFirst(xs[1..], x)
  }

  /** Removing the first occurrence takes away one copy of x and keeps everything else. */
  lemma {:induction false} RemoveFirstCount(xs: seq<int>, x: int)
    ensures x in xs ==> |RemoveFirst(xs, x)| == |xs| - 1 && multiset(RemoveFirst(xs, x)) == multiset(xs) - multiset{x}
    ensures x !in xs ==> RemoveFirst(xs, x) == xs
  {
    if xs != [] {
      assert xs == [xs[0]] + xs[1..];
      if xs[0] != x {
        RemoveFirstCount(xs[1..], x);
      }
    }
  }

  /** `copy.splice(i, 1)` on a fresh copy: the list without position i. */
  function SpliceOut(xs: seq<int>, i: nat): seq<int>
    requires i < |xs|
  {
    xs[..i] + xs[i + 1..]
  }

  /** Splicing out the first occurrence of x removes the first occurrence of x. */
  lemma {:induction false} SpliceOutFirst(xs: seq<int>, x: int, i: nat)
    requires i < |xs| && xs[i] == x && x !in xs[..i]
    ensures SpliceOut(xs, i) == RemoveFirst(xs, x)
  {
    if i > 0 {
      var tail := xs[1..];
      assert xs[..i] == [xs[0]] + tail[..i - 1];
      SpliceOutFirst(tail, x, i - 1);
      assert xs[i + 1..] == tail[i..];
    }
  }

  /**
   * The discharge shared by CP and RAA: the cited step must depend on the
   * assumption's line, and the step's dependencies, joined with commas, must
   * equal the cited step's with the first occurrence of that line spliced out.
   */
  function CheckDischarge(stepDeps: seq<int>, citedDeps: seq<int>, assumptionLine: int): (r: Check)
    ensures r == Pass <==> assumptionLine in citedDeps && stepDeps == RemoveFirst(citedDeps, assumptionLine)
    ensures assumptionLine !in citedDeps ==> r == Fail(NotDependency)
    ensures r == Pass || r == Fail(NotDependency) || r == Fail(DependenciesIncorrect)
  {
    var dependencyIndex := IndexOf(citedDeps, assumptionLine);
    if dependencyIndex == -1 then Fail(NotDependency)
    else
      var dependencies := SpliceOut(citedDeps, dependencyIndex);
      SpliceOutFirst(citedDeps, assumptionLine, dependencyIndex);
      if Join(IntStrings(dependencies), ',') != Join(IntStrings(stepDeps), ',') then Fail(DependenciesIncorrect)
      else
        JoinIntsInjective(dependencies, stepDeps);
        Pass
  }

  const NotDependency := "First reference must be a dependency of the second reference."

  // ---------------------------------------------------------------------
  // The validators
  // ---------------------------------------------------------------------

  /** `formula.left`, which only binary formulas have. */
  function LeftOf(f: Formula): Option<Node> {
    match f
    case Conjunction(l, _) => Some(l)
    case Disjunction(l, _) => Some(l)
    case Implication(l, _) => Some(l)
    case _ => None
  }

  /** `formula.right`, which every formula but a Proposition has. */
  function RightOf(f: Formula): Option<Node> {
    match f
    case Proposition(_) => None
    case Negation(r) => Some(r)
    case Conjunction(_, r) => Some(r)
    case Disjunction(_, r) => Some(r)
    case Implication(_, r) => Some(r)
  }

  /** `s` reparses, and renders as `t`. */
  predicate ReparsesTo(s: string, t: string) {
    Reparse(s) == Success(t)
  }

  /** `-(s)` reparses, and renders as `t`. */
  predicate NegationReparsesTo(s: string, t: string) {
    ReparsesTo("-(" + s + ")", t)
  }

  const NotDoubleNegationOfReference := "Step formula is not the double negation of the reference formula."

  /** `validateDNI`: the step is `--(reference)`, reparsed; dependencies as the reference's. */
  function ValidateDNI(step: Step, refStep: Step): (r: Check)
    ensures r == Pass <==>
      && ReparsesTo("--(" + refStep.formula.text + ")", step.formula.text)
      && ChainOk(step.dependencies, Elems(refStep.dependencies))
    ensures Reparse("--(" + refStep.formula.text + ")").Success? && !ReparsesTo("--(" + refStep.formula.text + ")", step.formula.text)
      ==> r == Fail(NotDoubleNegationOfReference)
  {
    var doubleNegation := Reparse("--(" + refStep.formula.text + ")");
    if doubleNegation.Failure? then doubleNegation.error
    else if step.formula.text != doubleNegation.value then Fail(NotDoubleNegationOfReference)
    else ValidateDependencyChain(step.dependencies, Elems(refStep.dependencies))
  }

  const ReferenceNotDoubleNegation := "The reference formula is not the double negation of step formula."

  /** `validateDNE`: the reference is `--(step)`, reparsed; dependencies as the reference's. */
  function ValidateDNE(step: Step, refStep: Step): (r: Check)
    ensures r == Pass <==>
      && ReparsesTo("--(" + step.formula.text + ")", refStep.formula.text)
      && ChainOk(step.dependencies, Elems(refStep.dependencies))
    ensures Reparse("--(" + step.formula.text + ")").Success? && !ReparsesTo("--(" + step.formula.text + ")", refStep.formula.text)
      ==> r == Fail(ReferenceNotDoubleNegation)
  {
    var doubleNegation := Reparse("--(" + step.formula.text + ")");
    if doubleNegation.Failure? then doubleNegation.error
    else if refStep.formula.text != doubleNegation.value then Fail(ReferenceNotDoubleNegation)
    else ValidateDependencyChain(step.dependencies, Elems(refStep.dependencies))
  }

  const FirstNotImplication := "First reference is not an implication."

  /**
   * `validateMPP`: the first reference is an implication, the second is its
   * antecedent and the step its consequent (each reparsed); dependencies are
   * the union of both references'.
   */
  function ValidateMPP(step: Step, impStep: Step, antStep: Step): (r: Check)
    ensures !impStep.formula.formula.Implication? ==> r == Fail(FirstNotImplication)
    ensures r == Pass <==>
      && impStep.formula.formula.Implication?
      && ReparsesTo(impStep.formula.formula.left.text, antStep.formula.text)
      && ReparsesTo(impStep.formula.formula.right.text, step.formula.text)
      && ChainOk(step.dependencies, Elems(impStep.dependencies) + Elems(antStep.dependencies))
  {
    if !impStep.formula.formula.Implication? then Fail(FirstNotImplication)
    else
      var antecedent := Reparse(impStep.formula.formula.left.text);
      var consequent := Reparse(impStep.formula.formula.right.text);
      if antecedent.Failure? then antecedent.error
      else if consequent.Failure? then consequent.error
      else if antStep.formula.text != antecedent.value then Fail("Second reference is not the antecedent of the first.")
      else if step.formula.text != consequent.value then Fail("Step is not the consequent of the implecation.")
      else ValidateDependencyChain(step.dependencies, Elems(impStep.dependencies) + Elems(antStep.dependencies))
  }

  /**
   * `validateMTT`: the first reference is an implication, the second is
   * `-(consequent)` and the step `-(antecedent)` (all reparsed); dependencies
   * are the union of both references'.
   */
  function ValidateMTT(step: Step, impStep: Step, notConStep: Step): (r: Check)
    ensures !impStep.formula.formula.Implication? ==> r == Fail(FirstNotImplication)
    ensures r == Pass <==>
      && impStep.formula.formula.Implication?
      && Reparse(impStep.formula.formula.left.text).Success?
      && Reparse(impStep.formula.formula.right.text).Success?
      && NegationReparsesTo(Reparse(impStep.formula.formula.right.text).value, notConStep.formula.text)
      && NegationReparsesTo(Reparse(impStep.formula.formula.left.text).value, step.formula.text)
      && ChainOk(step.dependencies, Elems(impStep.dependencies) + Elems(notConStep.dependencies))
  {
    if !impStep.formula.formula.Implication? then Fail(FirstNotImplication)
    else
      var antecedent := Reparse(impStep.formula.formula.left.text);
      if antecedent.Failure? then antecedent.error
      else
        var notAntecedent := Reparse("-(" + antecedent.value + ")");
        if notAntecedent.Failure? then notAntecedent.error
        else
          var consequent := Reparse(impStep.formula.formula.right.text);
          if consequent.Failure? then consequent.error
          else
            var notConsequent := Reparse("-(" + consequent.value + ")");
            if notConsequent.Failure? then notConsequent.error
            else if notConStep.formula.text != notConsequent.value then
              Fail("Second reference is not the negation of the consequent of the first.")
            else if step.formula.text != notAntecedent.value then
              Fail("Step is not the negation of the antecedent of the implecation.")
            else ValidateDependencyChain(step.dependencies, Elems(impStep.dependencies) + Elems(notConStep.dependencies))
  }

  const FirstNotAssumption := "First reference must be an assumption."

  /**
   * `validateCP`: the step is an implication whose antecedent is the first
   * reference, an assumption, and whose consequent is the second reference;
   * the step depends on what the second reference depends on, with the
   * assumption discharged.
   */
  function ValidateCP(step: Step, antStep: Step, conStep: Step): (r: Check)
    ensures !step.formula.formula.Implication? ==> r == Fail("Step formula is not an implication.")
    ensures step.formula.formula.Implication? && antStep.notation != "A" ==> r == Fail(FirstNotAssumption)
    ensures r == Pass <==>
      && step.formula.formula.Implication?
      && antStep.notation == "A"
      && ReparsesTo(step.formula.formula.left.text, antStep.formula.text)
      && ReparsesTo(step.formula.formula.right.text, conStep.formula.text)
      && antStep.line in conStep.dependencies
      && step.dependencies == RemoveFirst(conStep.dependencies, antStep.line)
  {
    if !step.formula.formula.Implication? then Fail("Step formula is not an implication.")
    else if antStep.notation != "A" then Fail(FirstNotAssumption)
    else
      var antecedent := Reparse(step.formula.formula.left.text);
      if antecedent.Failure? then antecedent.error
      else if antecedent.value != antStep.formula.text then Fail("First reference is not the antecedent of step formula.")
      else
        var consequent := Reparse(step.formula.formula.right.text);
        if consequent.Failure? then consequent.error
        else if consequent.value != conStep.formula.text then Fail("Second reference is not the consequent of step formula.")
        else CheckDischarge(step.dependencies, conStep.dependencies, antStep.line)
  }

  /**
   * `validateCI`: the step is a conjunction whose left side is the first
   * reference and whose right side is the second (each reparsed);
   * dependencies are the union of both references'.
   */
  function ValidateCI(step: Step, leftStep: Step, rightStep: Step): (r: Check)
    ensures !step.formula.formula.Conjunction? ==> r == Fail("Step formula is not a conjunction.")
    ensures r == Pass <==>
      && step.formula.formula.Conjunction?
      && ReparsesTo(step.formula.formula.left.text, leftStep.formula.text)
      && ReparsesTo(step.formula.formula.right.text, rightStep.formula.text)
      && ChainOk(step.dependencies, Elems(leftStep.dependencies) + Elems(rightStep.dependencies))
  {
    if !step.formula.formula.Conjunction? then Fail("Step formula is not a conjunction.")
    else
      var left := Reparse(step.formula.formula.left.text);
      var right := Reparse(step.formula.formula.right.text);
      if left.Failure? then left.error
      else if right.Failure? then right.error
      else if leftStep.formula.text != left.value || rightStep.formula.text != right.value then
        Fail("References do not match the conjunction.")
      else ValidateDependencyChain(step.dependencies, Elems(leftStep.dependencies) + Elems(rightStep.dependencies))
  }

  /** `validateCE`: the step is one side of the reference, a conjunction; dependencies as the reference's. */
  function ValidateCE(step: Step, refStep: Step): (r: Check)
    ensures !refStep.formula.formula.Conjunction? ==> r == Fail("Reference formula is not a conjunction.")
    ensures r == Pass <==>
      && refStep.formula.formula.Conjunction?
      && Reparse(refStep.formula.formula.left.text).Success?
      && Reparse(refStep.formula.formula.right.text).Success?
      && (|| step.formula.text == Reparse(refStep.formula.formula.left.text).value
          || step.formula.text == Reparse(refStep.formula.formula.right.text).value)
      && ChainOk(step.dependencies, Elems(refStep.dependencies))
  {
    if !refStep.formula.formula.Conjunction? then Fail("Reference formula is not a conjunction.")
    else
      var left := Reparse(refStep.formula.formula.left.text);
      var right := Reparse(refStep.formula.formula.right.text);
      if left.Failure? then left.error
      else if right.Failure? then right.error
      else if step.formula.text != left.value && step.formula.text != right.value then
        Fail("Step formula is not contained within the reference conjunction.")
      else ValidateDependencyChain(step.dependencies, Elems(refStep.dependencies))
  }

  /** `validateDI`: the reference is one side of the step, a disjunction; dependencies as the reference's. */
  function ValidateDI(step: Step, refStep: Step): (r: Check)
    ensures !step.formula.formula.Disjunction? ==> r == Fail("Step formula is not a disjunction.")
    ensures r == Pass <==>
      && step.formula.formula.Disjunction?
      && Reparse(step.formula.formula.left.text).Success?
      && Reparse(step.formula.formula.right.text).Success?
      && (|| refStep.formula.text == Reparse(step.formula.formula.left.text).value
          || refStep.formula.text == Reparse(step.formula.formula.right.text).value)
      && ChainOk(step.dependencies, Elems(refStep.dependencies))
  {
    if !step.formula.formula.Disjunction? then Fail("Step formula is not a disjunction.")
    else
      var left := Reparse(step.formula.formula.left.text);
      var right := Reparse(step.formula.formula.right.text);
      if left.Failure? then left.error
      else if right.Failure? then right.error
      else if refStep.formula.text != left.value && refStep.formula.text != right.value then
        Fail("Reference is not contained within the disjunction.")
      else ValidateDependencyChain(step.dependencies, Elems(refStep.dependencies))
  }

  /** The dependencies the step of disjunction elimination must name. */
  function DisjunctionEliminationSet(disStep: Step, laStep: Step, lcStep: Step, raStep: Step, rcStep: Step): set<int> {
    Elems(disStep.dependencies)
    + Elems(RemoveFirst(lcStep.dependencies, laStep.line))
    + Elems(RemoveFirst(rcStep.dependencies, raStep.line))
  }

  const DisjunctionUnderLeftAssumption := "Disjunction (reference 1) incorrectly depends on Left Assumption (reference 2)."
  const DisjunctionUnderRightAssumption := "Disjunction (reference 1) incorrectly depends on Right Assumption (reference 4)."
  const LeftConclusionWithoutAssumption := "Left Conclusion (reference 3) does not depend on Left Assumption (reference 2)."
  const LeftConclusionUnderRightAssumption := "Left Conclusion (reference 3) incorrectly depends on Right Assumption (reference 4)."
  const RightConclusionWithoutAssumption := "Right Conclusion (reference 5) does not depend on Right Assumption (reference 4)."
  const RightConclusionUnderLeftAssumption := "Right Conclusion (reference 5) incorrectly depends on Left Assumption (reference 2)."

  /**
   * The dependency half of `validateDE`: neither assumption under the
   * disjunction, each conclusion under its own assumption and not the other,
   * checked in this order, then the chain check against the disjunction's
   * dependencies and both conclusions' with their assumption spliced out.
   */
  function CheckDisjunctionDischarge(step: Step, disStep: Step, laStep: Step, lcStep: Step, raStep: Step, rcStep: Step): (r: Check)
    ensures laStep.line in disStep.dependencies ==> r == Fail(DisjunctionUnderLeftAssumption)
    ensures laStep.line !in disStep.dependencies && raStep.line in disStep.dependencies
      ==> r == Fail(DisjunctionUnderRightAssumption)
    ensures laStep.line !in disStep.dependencies && raStep.line !in disStep.dependencies
      && laStep.line !in lcStep.dependencies
      ==> r == Fail(LeftConclusionWithoutAssumption)
    ensures laStep.line !in disStep.dependencies && raStep.line !in disStep.dependencies
      && laStep.line in lcStep.dependencies && raStep.line in lcStep.dependencies
      ==> r == Fail(LeftConclusionUnderRightAssumption)
    ensures laStep.line !in disStep.dependencies && raStep.line !in disStep.dependencies
      && laStep.line in lcStep.dependencies && raStep.line !in lcStep.dependencies
      && raStep.line !in rcStep.dependencies
      ==> r == Fail(RightConclusionWithoutAssumption)
    ensures laStep.line !in disStep.dependencies && raStep.line !in disStep.dependencies
      && laStep.line in lcStep.dependencies && raStep.line !in lcStep.dependencies
      && raStep.line in rcStep.dependencies && laStep.line in rcStep.dependencies
      ==> r == Fail(RightConclusionUnderLeftAssumption)
    ensures r == Pass <==>
      && laStep.line !in disStep.dependencies && raStep.line !in disStep.dependencies
      && laStep.line in lcStep.dependencies && raStep.line !in lcStep.dependencies
      && raStep.line in rcStep.dependencies && laStep.line !in rcStep.dependencies
      && ChainOk(step.dependencies, DisjunctionEliminationSet(disStep, laStep, lcStep, raStep, rcStep))
  {
    var leftIndex := IndexOf(lcStep.dependencies, laStep.line);
    var rightIndex := IndexOf(rcStep.dependencies, raStep.line);
    if laStep.line in disStep.dependencies then Fail(DisjunctionUnderLeftAssumption)
    else if raStep.line in disStep.dependencies then Fail(DisjunctionUnderRightAssumption)
    else if leftIndex == -1 then Fail(LeftConclusionWithoutAssumption)
    else if raStep.line in lcStep.dependencies then Fail(LeftConclusionUnderRightAssumption)
    else if rightIndex == -1 then Fail(RightConclusionWithoutAssumption)
    else if laStep.line in rcStep.dependencies then Fail(RightConclusionUnderLeftAssumption)
    else
      var leftDependencies := SpliceOut(lcStep.dependencies, leftIndex);
      var rightDependencies := SpliceOut(rcStep.dependencies, rightIndex);
      SpliceOutFirst(lcStep.dependencies, laStep.line, leftIndex);
      SpliceOutFirst(rcStep.dependencies, raStep.line, rightIndex);
      ValidateDependencyChain(step.dependencies,
        Elems(disStep.dependencies) + Elems(leftDependencies) + Elems(rightDependencies))
  }

  /**
   * `validateDE`: the first reference is a disjunction; each side was assumed
   * (references 2 and 4) and led to the step (references 3 and 5); then the
   * dependency checks.
   */
  function ValidateDE(step: Step, disStep: Step, laStep: Step, lcStep: Step, raStep: Step, rcStep: Step): (r: Check)
    ensures !disStep.formula.formula.Disjunction? ==> r == Fail("Reference 1 is not a disjunction.")
    ensures disStep.formula.formula.Disjunction? ==>
      var left := Reparse(disStep.formula.formula.left.text);
      var right := Reparse(disStep.formula.formula.right.text);
      left.Success? && right.Success? ==>
      && (laStep.formula.text != left.value
          ==> r == Fail("Left Assumption (reference 2) does not match the disjunction."))
      && (laStep.formula.text == left.value && laStep.notation != "A"
          ==> r == Fail("Left Assumption (reference 2) is not an assumption."))
      && (laStep.formula.text == left.value && laStep.notation == "A" && step.formula.text != lcStep.formula.text
          ==> r == Fail("Left Conclusion (reference 3) is not the equivalent to step formula."))
      && (laStep.formula.text == left.value && laStep.notation == "A" && step.formula.text == lcStep.formula.text
          && raStep.formula.text != right.value
          ==> r == Fail("Right Assumption (reference 4) does not match the disjunction."))
      && (laStep.formula.text == left.value && laStep.notation == "A" && step.formula.text == lcStep.formula.text
          && raStep.formula.text == right.value && raStep.notation != "A"
          ==> r == Fail("Right Assumption (reference 4) is not an assumption."))
      && (laStep.formula.text == left.value && laStep.notation == "A" && step.formula.text == lcStep.formula.text
          && raStep.formula.text == right.value && raStep.notation == "A" && step.formula.text != rcStep.formula.text
          ==> r == Fail("Right Conclusion (reference 5) is not the equivalent to step formula."))
      && (laStep.formula.text == left.value && laStep.notation == "A" && step.formula.text == lcStep.formula.text
          && raStep.formula.text == right.value && raStep.notation == "A" && step.formula.text == rcStep.formula.text
          ==> r == CheckDisjunctionDischarge(step, disStep, laStep, lcStep, raStep, rcStep))
    ensures r == Pass <==>
      && disStep.formula.formula.Disjunction?
      && ReparsesTo(disStep.formula.formula.left.text, laStep.formula.text)
      && ReparsesTo(disStep.formula.formula.right.text, raStep.formula.text)
      && laStep.notation == "A" && raStep.notation == "A"
      && step.formula.text == lcStep.formula.text == rcStep.formula.text
      && CheckDisjunctionDischarge(step, disStep, laStep, lcStep, raStep, rcStep) == Pass
  {
    if !disStep.formula.formula.Disjunction? then Fail("Reference 1 is not a disjunction.")
    else
      var left := Reparse(disStep.formula.formula.left.text);
      var right := Reparse(disStep.formula.formula.right.text);
      if left.Failure? then left.error
      else if right.Failure? then right.error
      else if laStep.formula.text != left.value then Fail("Left Assumption (reference 2) does not match the disjunction.")
      else if laStep.notation != "A" then Fail("Left Assumption (reference 2) is not an assumption.")
      else if step.formula.text != lcStep.formula.text then Fail("Left Conclusion (reference 3) is not the equivalent to step formula.")
      else if raStep.formula.text != right.value then Fail("Right Assumption (reference 4) does not match the disjunction.")
      else if raStep.notation != "A" then Fail("Right Assumption (reference 4) is not an assumption.")
      else if step.formula.text != rcStep.formula.text then Fail("Right Conclusion (reference 5) is not the equivalent to step formula.")
      else CheckDisjunctionDischarge(step, disStep, laStep, lcStep, raStep, rcStep)
  }

  /**
   * `validateRAA`: the step is `-(first reference)`, reparsed; the first
   * reference is an assumption; the second is a formal contradiction `X&Y`
   * where Y reparses to `-(X)`; the assumption is discharged from the second
   * reference's dependencies. The left side of the second reference is read
   * before its type is checked, so a Proposition or Negation there is a
   * fault.
   */
  function ValidateRAA(step: Step, assumptionStep: Step, contradictionStep: Step): (r: Check)
    ensures
      && NegationReparsesTo(assumptionStep.formula.text, step.formula.text)
      && assumptionStep.notation == "A"
      && (contradictionStep.formula.formula.Proposition? || contradictionStep.formula.formula.Negation?)
      ==> r == Fault
    ensures r == Pass <==>
      && NegationReparsesTo(assumptionStep.formula.text, step.formula.text)
      && assumptionStep.notation == "A"
      && contradictionStep.formula.formula.Conjunction?
      && Reparse("-(" + contradictionStep.formula.formula.left.text + ")").Success?
      && ReparsesTo(contradictionStep.formula.formula.right.text,
                    Reparse("-(" + contradictionStep.formula.formula.left.text + ")").value)
      && assumptionStep.line in contradictionStep.dependencies
      && step.dependencies == RemoveFirst(contradictionStep.dependencies, assumptionStep.line)
  {
    var assumptionString := Reparse("-(" + assumptionStep.formula.text + ")");
    if assumptionString.Failure? then assumptionString.error
    else if step.formula.text != assumptionString.value then Fail("Step is not the negation of the first reference.")
    else if assumptionStep.notation != "A" then Fail(FirstNotAssumption)
    else
      match LeftOf(contradictionStep.formula.formula)
      case None => Fault
      case Some(left) =>
        var leftString := Reparse("-(" + left.text + ")");
        if leftString.Failure? then leftString.error
        else
          var rightString := Reparse(RightOf(contradictionStep.formula.formula).value.text);
          if rightString.Failure? then rightString.error
          else if !contradictionStep.formula.formula.Conjunction? || leftString.value != rightString.value then
            Fail("Second reference is not a formal contradiction.")
          else CheckDischarge(step.dependencies, contradictionStep.dependencies, assumptionStep.line)
  }

  // ---------------------------------------------------------------------
  // DERIVATION_RULES: notations and dispatch
  // ---------------------------------------------------------------------

  /** The entries of DERIVATION_RULES. */
  datatype RuleKind = Assumption | DNI | DNE | MPP | MTT | CP | CI | CE | DI | DE | RAA

  /** The table, in the order `find` searches it. */
  const DerivationRuleTable: seq<RuleKind> := [Assumption, DNI, DNE, MPP, MTT, CP, CI, CE, DI, DE, RAA]

  function Name(k: RuleKind): string {
    match k
    case Assumption => "Rule of Assumptions (A)"
    case DNI => "Double Negation Introduction (DNI)"
    case DNE => "Double Negation Elimination (DNE)"
    case MPP => "Modus Ponendo Ponens (MPP)"
    case MTT => "Modus Tollendo Tollens (MTT)"
    case CP => "Conditional Proof (CP)"
    case CI => "Conjunction Introduction (CI)"
    case CE => "Conjunction Elimination (CE)"
    case DI => "Disjunction Introduction (DI)"
    case DE => "Disjunction Elimination (DE)"
    case RAA => "Reductio Ad Absurdum (RAA)"
  }

  /** The `type` field, which is also the word that ends a notation. */
  function RuleType(k: RuleKind): string {
    match k
    case Assumption => "A"
    case DNI => "DNI"
    case DNE => "DNE"
    case MPP => "MPP"
    case MTT => "MTT"
    case CP => "CP"
    case CI => "CI"
    case CE => "CE"
    case DI => "DI"
    case DE => "DE"
    case RAA => "RAA"
  }

  /** How many lines a notation of the rule cites. */
  function Arity(k: RuleKind): nat {
    match k
    case Assumption => 0
    case DNI => 1
    case DNE => 1
    case CE => 1
    case DI => 1
    case DE => 5
    case _ => 2
  }

  /** `getNotation(n1, ..., nk)`: the cited lines joined with commas, a space, the rule's type. */
  function GetNotation(k: RuleKind, refs: seq<nat>): string
    requires |refs| == Arity(k)
  {
    if k == Assumption then "A" else Join(IntStrings(refs), ',') + " " + RuleType(k)
  }

  /** `n` non-empty runs of digits separated by single commas, and nothing else (`\d+,\d+,...`). */
  predicate DigitGroups(s: string, n: nat)
    decreases |s|
  {
    var c := LeadingDigits(s);
    c > 0 && n > 0 &&
    if c == |s| then n == 1 else s[c] == ',' && DigitGroups(s[c + 1..], n - 1)
  }

  /**
   * `matchNotation`: "A" for an assumption; otherwise the cited lines, then
   * one space, then the rule's type, and nothing else. Digits and commas
   * contain no space, so the first space is the one before the type.
   */
  predicate MatchNotation(k: RuleKind, s: string) {
    if k == Assumption then s == "A"
    else
      var j := IndexOf(s, ' ');
      j >= 0 && s[j + 1..] == RuleType(k) && DigitGroups(s[..j], Arity(k))
  }

  /** The first rule of `table` whose notation matches. */
  function FindRuleIn(s: string, table: seq<RuleKind>): (r: Option<RuleKind>)
    ensures r.Some? ==> r.value in table && MatchNotation(r.value, s)
    ensures r.None? ==> forall k :: k in table ==> !MatchNotation(k, s)
  {
    if table == [] then None
    else if MatchNotation(table[0], s) then Some(table[0])
    else FindRuleIn(s, table[1..])
  }

  /** Where a rule sits in the table. */
  function TableIndex(k: RuleKind): (i: nat)
    ensures i < |DerivationRuleTable| && DerivationRuleTable[i] == k
  {
    match k
    case Assumption => 0
    case DNI => 1
    case DNE => 2
    case MPP => 3
    case MTT => 4
    case CP => 5
    case CI => 6
    case CE => 7
    case DI => 8
    case DE => 9
    case RAA => 10
  }

  /** `DERIVATION_RULES.find(r => r.matchNotation(notation))`. */
  function FindRule(s: string): (r: Option<RuleKind>)
    ensures r.Some? ==> MatchNotation(r.value, s)
    ensures r.None? ==> forall k :: !MatchNotation(k, s)
  {
    var r := FindRuleIn(s, DerivationRuleTable);
    assert forall k :: DerivationRuleTable[TableIndex(k)] == k;
    r
  }

  /** The number of digits `s` starts with. */
  function LeadingDigits(s: string): (n: nat)
    ensures n <= |s|
  {
    if s == [] || !IsDigit(s[0]) then 0 else 1 + LeadingDigits(s[1..])
  }

  /** The leading digits are digits, and the character after them is not. */
  lemma {:induction false} LeadingDigitsRun(s: string)
    ensures AllDigits(s[..LeadingDigits(s)])
    ensures LeadingDigits(s) < |s| ==> !IsDigit(s[LeadingDigits(s)])
  {
    if s != [] && IsDigit(s[0]) {
      LeadingDigitsRun(s[1..]);
      var n := LeadingDigits(s);
      assert forall i :: 1 <= i < n ==> s[..n][i] == s[1..][..n - 1][i - 1];
    }
  }

  /** `notation.match(/\d+/g)` with each run converted to a number: the cited lines. */
  function DigitRuns(s: string): seq<nat>
    decreases |s|
  {
    if s == [] then []
    else if !IsDigit(s[0]) then DigitRuns(s[1..])
    else
      var n := LeadingDigits(s);
      LeadingDigitsRun(s);
      [ParseNat(s[..n])] + DigitRuns(s[n..])
  }

  /** `validate(step, ...referenceSteps)` of the rule. */
  function Validate(k: RuleKind, step: Step, refs: seq<Step>): Check
    requires |refs| == Arity(k)
  {
    match k
    case Assumption => ValidateAssumption(step)
    case DNI => ValidateDNI(step, refs[0])
    case DNE => ValidateDNE(step, refs[0])
    case MPP => ValidateMPP(step, refs[0], refs[1])
    case MTT => ValidateMTT(step, refs[0], refs[1])
    case CP => ValidateCP(step, refs[0], refs[1])
    case CI => ValidateCI(step, refs[0], refs[1])
    case CE => ValidateCE(step, refs[0])
    case DI => ValidateDI(step, refs[0])
    case DE => ValidateDE(step, refs[0], refs[1], refs[2], refs[3], refs[4])
    case RAA => ValidateRAA(step, refs[0], refs[1])
  }

  // ---------------------------------------------------------------------
  // Properties of the notations
  // ---------------------------------------------------------------------

  predicate NoDigits(s: string) {
    forall i :: 0 <= i < |s| ==> !IsDigit(s[i])
  }

  lemma {:induction false} LeadingDigitsOf(d: string, t: string)
    requires AllDigits(d) && (t == [] || !IsDigit(t[0]))
    ensures LeadingDigits(d + t) == |d|
  {
    if d != [] {
      assert (d + t)[1..] == d[1..] + t;
      LeadingDigitsOf(d[1..], t);
    } else {
      assert d + t == t;
    }
  }

  lemma {:induction false} RunsOfNoDigits(t: string)
    requires NoDigits(t)
    ensures DigitRuns(t) == []
  {
    if t != [] {
      RunsOfNoDigits(t[1..]);
    }
  }

  /** A run of digits followed by a non-digit is one cited line. */
  lemma RunThenSeparator(d: string, t: string)
    requires d != [] && AllDigits(d) && (t == [] || !IsDigit(t[0]))
    ensures DigitRuns(d + t) == [ParseNat(d)] + DigitRuns(t)
  {
    LeadingDigitsOf(d, t);
    assert (d + t)[..|d|] == d && (d + t)[|d|..] == t;
  }

  /** A joined list of two or more lines: the first line, a comma, the rest joined. */
  lemma JoinedNatsSplit(refs: seq<nat>)
    requires |refs| > 1
    ensures Join(IntStrings(refs), ',') == IntString(refs[0]) + [','] + Join(IntStrings(refs[1..]), ',')
  {
    assert IntStrings(refs)[1..] == IntStrings(refs[1..]);
  }

  /** A line number is rendered as digits that parse back to it. */
  lemma LineRendering(n: nat)
    ensures IntString(n) == NatString(n) && AllDigits(IntString(n)) && ParseNat(IntString(n)) == n
  {
    ParseNatString(n);
  }

  lemma JoinedNatsHaveNoSpace(refs: seq<nat>)
    ensures ' ' !in Join(IntStrings(refs), ',')
    decreases |refs|
  {
    if |refs| > 0 {
      LineRendering(refs[0]);
      assert ' ' !in IntString(refs[0]);
    }
    if |refs| > 1 {
      JoinedNatsHaveNoSpace(refs[1..]);
      JoinedNatsSplit(refs);
    }
  }

  /** A run of digits, a comma, then more text: one cited line, then the runs of the text. */
  lemma RunThenComma(d: string, rest: string, tail: string)
    requires d != [] && AllDigits(d)
    ensures DigitRuns(d + [','] + rest + tail) == [ParseNat(d)] + DigitRuns(rest + tail)
  {
    assert d + [','] + rest + tail == d + ([','] + (rest + tail));
    RunThenSeparator(d, [','] + (rest + tail));
    assert ([','] + (rest + tail))[1..] == rest + tail;
  }

  /** The cited lines are recovered, in order, from a joined list followed by a digit-free tail. */
  lemma {:induction false} RunsOfJoinedNats(refs: seq<nat>, tail: string)
    requires |refs| >= 1 && NoDigits(tail)
    ensures DigitRuns(Join(IntStrings(refs), ',') + tail) == refs
    decreases |refs|
  {
    var first := IntString(refs[0]);
    LineRendering(refs[0]);
    if |refs| == 1 {
      RunThenSeparator(first, tail);
      RunsOfNoDigits(tail);
    } else {
      var rest := Join(IntStrings(refs[1..]), ',');
      JoinedNatsSplit(refs);
      RunThenComma(first, rest, tail);
      RunsOfJoinedNats(refs[1..], tail);
    }
  }

  /** The first occurrence of a separator that the prefix does not contain. */
  lemma {:induction false} IndexOfSeparator(a: string, x: char, b: string)
    requires x !in a
    ensures IndexOf(a + [x] + b, x) == |a|
    ensures (a + [x] + b)[..|a|] == a && (a + [x] + b)[|a| + 1..] == b
  {
    if a != [] {
      assert (a + [x] + b)[1..] == a[1..] + [x] + b;
      IndexOfSeparator(a[1..], x, b);
    }
  }

  /** A joined list of lines is as many digit groups as there are lines. */
  lemma {:induction false} JoinedNatsAreDigitGroups(refs: seq<nat>)
    requires |refs| >= 1
    ensures DigitGroups(Join(IntStrings(refs), ','), |refs|)
    decreases |refs|
  {
    var first := IntString(refs[0]);
    LineRendering(refs[0]);
    if |refs| == 1 {
      LeadingDigitsOf(first, []);
      assert first + [] == first;
    } else {
      var rest := Join(IntStrings(refs[1..]), ',');
      JoinedNatsSplit(refs);
      assert first + [','] + rest == first + ([','] + rest);
      LeadingDigitsOf(first, [','] + rest);
      assert (first + [','] + rest)[|first| + 1..] == rest;
      JoinedNatsAreDigitGroups(refs[1..]);
    }
  }

  /** Text cut at a position: what comes before, the character there, what comes after. */
  lemma CutAt(s: string, c: nat)
    requires c < |s|
    ensures s == s[..c] + [s[c]] + s[c + 1..]
  {
  }

  /** The first of several digit groups, its comma, and the groups after it. */
  lemma FirstDigitGroup(body: string, n: nat) returns (d: string, rest: string)
    requires DigitGroups(body, n) && LeadingDigits(body) < |body|
    ensures d != [] && AllDigits(d) && n > 1 && DigitGroups(rest, n - 1) && body == d + [','] + rest
  {
    var c := LeadingDigits(body);
    LeadingDigitsRun(body);
    d, rest := body[..c], body[c + 1..];
    CutAt(body, c);
  }

  /** One run of digits followed by a digit-free tail is one cited line. */
  lemma LastRun(d: string, tail: string)
    requires d != [] && AllDigits(d) && NoDigits(tail)
    ensures DigitRuns(d + tail) == [ParseNat(d)]
  {
    RunThenSeparator(d, tail);
    RunsOfNoDigits(tail);
  }

  /** A matching notation cites exactly as many lines as its rule takes. */
  lemma {:induction false} DigitGroupsRuns(body: string, n: nat, tail: string)
    requires DigitGroups(body, n) && NoDigits(tail)
    ensures |DigitRuns(body + tail)| == n
    decreases |body|
  {
    if LeadingDigits(body) == |body| {
      LeadingDigitsRun(body);
      assert body[..|body|] == body;
      LastRun(body, tail);
    } else {
      var d, rest := FirstDigitGroup(body, n);
      DigitGroupsRuns(rest, n - 1, tail);
      RunThenComma(d, rest, tail);
    }
  }

  /** The word after the space contains no digit. */
  lemma TypeWordHasNoDigits(k: RuleKind)
    ensures NoDigits([' '] + RuleType(k))
  {
  }

  /** A joined list, a space and a digit-free word: the word follows the first space and the lines are recovered. */
  lemma {:induction false} NotationShape(refs: seq<nat>, word: string)
    requires |refs| >= 1 && NoDigits([' '] + word)
    ensures var s := Join(IntStrings(refs), ',') + " " + word;
      IndexOf(s, ' ') == |Join(IntStrings(refs), ',')| && s[|Join(IntStrings(refs), ',')| + 1..] == word
      && s[..|Join(IntStrings(refs), ',')|] == Join(IntStrings(refs), ',') && DigitRuns(s) == refs
  {
    var body := Join(IntStrings(refs), ',');
    JoinedNatsHaveNoSpace(refs);
    IndexOfSeparator(body, ' ', word);
    assert body + " " + word == body + ([' '] + word);
    RunsOfJoinedNats(refs, [' '] + word);
  }

  /** The notation `getNotation` builds is accepted by its own rule, and cites the lines it was built from. */
  lemma NotationRoundTrip(k: RuleKind, refs: seq<nat>)
    requires |refs| == Arity(k)
    ensures MatchNotation(k, GetNotation(k, refs))
    ensures k != Assumption ==> DigitRuns(GetNotation(k, refs)) == refs
  {
    if k != Assumption {
      TypeWordHasNoDigits(k);
      NotationShape(refs, RuleType(k));
      JoinedNatsAreDigitGroups(refs);
    }
  }

  /** No notation is accepted by two rules. */
  lemma NotationsDisjoint(k1: RuleKind, k2: RuleKind, s: string)
    requires MatchNotation(k1, s) && MatchNotation(k2, s)
    ensures k1 == k2
  {
    if k1 != Assumption && k2 != Assumption {
      assert RuleType(k1) == RuleType(k2);
    }
  }

  /** `find` picks the rule a notation was built for. */
  lemma FindRuleOfNotation(k: RuleKind, refs: seq<nat>)
    requires |refs| == Arity(k)
    ensures FindRule(GetNotation(k, refs)) == Some(k)
  {
    NotationRoundTrip(k, refs);
    var r := FindRule(GetNotation(k, refs));
    NotationsDisjoint(r.value, k, GetNotation(k, refs));
  }

  /** A notation a rule accepts cites exactly as many lines as the rule's validator takes. */
  lemma MatchedNotationArity(k: RuleKind, s: string)
    requires MatchNotation(k, s) && k != Assumption
    ensures |DigitRuns(s)| == Arity(k)
  {
    var j := IndexOf(s, ' ');
    assert s == s[..j] + s[j..];
    assert s[j..] == " " + RuleType(k);
    DigitGroupsRuns(s[..j], Arity(k), s[j..]);
  }
}
