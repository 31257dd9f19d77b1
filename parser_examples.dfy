/**
 * The inputs of tests/unit/models/formulaParser.spec.js (lines 4-59 and the
 * ambiguity cases of lines 76-86), together with `P&Q&R` for the rejection
 * at src/models/formulaParser.js:129-142, at the level of the trees built
 * from the element lists that flattening produces for them (atoms first, in
 * order of appearance, then groups, negations, junctions and implications,
 * leftmost first). ParserRuns proves that each input flattens to its list.
 */
module ParserExamples {
  import opened Wrappers
  import opened FormulaParser

  /** The element list of `P&Q&R`: P, Q, R, `0&1`, `3&2`; the root is 4. */
  function ChainedConjunction(): seq<Element> {
    [[Sym('P')], [Sym('Q')], [Sym('R')], [Ref(0), Sym('&'), Ref(1)], [Ref(3), Sym('&'), Ref(2)]]
  }

  /** The element list of `P>S&Q>R`: P, S, Q, R, `1&2`, `0>4`, `5>3`; the root is 6. */
  function ChainedImplication(): seq<Element> {
    [[Sym('P')], [Sym('S')], [Sym('Q')], [Sym('R')],
     [Ref(1), Sym('&'), Ref(2)], [Ref(0), Sym('>'), Ref(4)], [Ref(5), Sym('>'), Ref(3)]]
  }

  /** The element list of `P>(P>Q)`: P, Q, `0>1`, `(0>1)`, `0>3`; the root is 4. */
  function NestedImplication(): seq<Element> {
    [[Sym('P')], [Sym('Q')], [Ref(0), Sym('>'), Ref(1)],
     [Sym('('), Ref(0), Sym('>'), Ref(1), Sym(')')], [Ref(0), Sym('>'), Ref(3)]]
  }

  /** The atom `c` as a leaf: its Proposition, unparenthesised. */
  function Leaf(c: char): Node {
    Node(Proposition(c), false, [c])
  }

  lemma ChainedConjunctionTable(els: seq<Element>)
    requires els == ChainedConjunction()
    ensures TableOk(els)
  {
    assert ElementOk(els, 0) && ElementOk(els, 1) && ElementOk(els, 2);
    assert ElementOk(els, 3) && ElementOk(els, 4);
  }

  /** In `P&Q&R`, the first `&` builds the Conjunction of P and Q. */
  lemma ChainedConjunctionOperand(els: seq<Element>)
    requires TableOk(els) && |els| > 3
    requires els[0] == [Sym('P')] && els[1] == [Sym('Q')] && els[3] == [Ref(0), Sym('&'), Ref(1)]
    ensures ConstructFormula(els, 3, Some(ConjunctionNode)) == Success(Node(Conjunction(Leaf('P'), Leaf('Q')), false, "P&Q"))
  {
    var t := Some(ConjunctionNode);
    UnaryTree(els, 0, t);
    UnaryTree(els, 1, t);
    JunctionTree(els, 3, t);
    assert ConstructFormula(els, 3, t).value.text == "P" + "&" + "Q";
    ExampleTexts();
  }

  /** `P&Q&R` is rejected: a Conjunction with an unparenthesised Conjunction operand. */
  lemma ChainedConjunctionIsAmbiguous(els: seq<Element>)
    requires els == ChainedConjunction()
    ensures TableOk(els)
    ensures ConstructFormula(els, 4, None) == Failure(Ambiguous("P&Q&R"))
  {
    ChainedConjunctionTable(els);
    ChainedConjunctionOperand(els);
    UnaryTree(els, 2, Some(ConjunctionNode));
    JunctionTree(els, 4, None);
    ExampleTexts();
  }

  lemma ChainedImplicationTable(els: seq<Element>)
    requires els == ChainedImplication()
    ensures TableOk(els)
  {
    assert ElementOk(els, 0) && ElementOk(els, 1) && ElementOk(els, 2) && ElementOk(els, 3);
    assert ElementOk(els, 4) && ElementOk(els, 5) && ElementOk(els, 6);
  }

  /** In `P>S&Q>R`, the `&` binds first: S&Q is one Conjunction. */
  lemma ChainedImplicationJunction(els: seq<Element>)
    requires TableOk(els) && |els| > 4
    requires els[1] == [Sym('S')] && els[2] == [Sym('Q')] && els[4] == [Ref(1), Sym('&'), Ref(2)]
    ensures ConstructFormula(els, 4, Some(ImplicationNode)) == Success(Node(Conjunction(Leaf('S'), Leaf('Q')), false, "S&Q"))
  {
    UnaryTree(els, 1, Some(ConjunctionNode));
    UnaryTree(els, 2, Some(ConjunctionNode));
    JunctionTree(els, 4, Some(ImplicationNode));
    assert ConstructFormula(els, 4, Some(ImplicationNode)).value.text == "S" + "&" + "Q";
    ExampleTexts();
  }

  /** In `P>S&Q>R`, the first `>` builds P>S&Q, whose Conjunction operand needs no parentheses. */
  lemma ChainedImplicationOperand(els: seq<Element>)
    requires TableOk(els) && |els| > 5
    requires els[0] == [Sym('P')] && els[1] == [Sym('S')] && els[2] == [Sym('Q')]
    requires els[4] == [Ref(1), Sym('&'), Ref(2)] && els[5] == [Ref(0), Sym('>'), Ref(4)]
    ensures var sq := Node(Conjunction(Leaf('S'), Leaf('Q')), false, "S&Q");
      ConstructFormula(els, 5, Some(ImplicationNode)) == Success(Node(Implication(Leaf('P'), sq), false, "P>S&Q"))
  {
    ChainedImplicationJunction(els);
    UnaryTree(els, 0, Some(ImplicationNode));
    ImplicationTree(els, 5, Some(ImplicationNode));
    assert ConstructFormula(els, 5, Some(ImplicationNode)).value.text == "P" + ">" + "S&Q";
    ExampleTexts();
  }

  /** `P>S&Q>R` is rejected: an Implication with an unparenthesised Implication operand. */
  lemma ChainedImplicationIsAmbiguous(els: seq<Element>)
    requires els == ChainedImplication()
    ensures TableOk(els)
    ensures ConstructFormula(els, 6, None) == Failure(Ambiguous("P>S&Q>R"))
  {
    ChainedImplicationTable(els);
    ChainedImplicationOperand(els);
    UnaryTree(els, 3, Some(ImplicationNode));
    ImplicationTree(els, 6, None);
    ExampleTexts();
  }

  lemma NestedImplicationTable(els: seq<Element>)
    requires els == NestedImplication()
    ensures TableOk(els)
  {
    assert ElementOk(els, 0) && ElementOk(els, 1) && ElementOk(els, 2);
    assert GroupContent(els[3]) == els[2];
    assert ElementOk(els, 3) && ElementOk(els, 4);
  }

  /** The group `(0>1)` at 3 wraps element 2. */
  lemma GroupAtThree(els: seq<Element>)
    requires TableOk(els) && |els| > 3
    requires els[0] == [Sym('P')] && els[1] == [Sym('Q')] && els[2] == [Ref(0), Sym('>'), Ref(1)]
    requires els[3] == [Sym('('), Ref(0), Sym('>'), Ref(1), Sym(')')]
    ensures CenterIndex(els, 3) == 2
  {
    assert GroupContent(els[3]) == els[2];
  }

  /** In `P>(P>Q)`, the inner `>` builds the Implication of P and Q. */
  lemma NestedImplicationInner(els: seq<Element>)
    requires TableOk(els) && |els| > 2
    requires els[0] == [Sym('P')] && els[1] == [Sym('Q')] && els[2] == [Ref(0), Sym('>'), Ref(1)]
    ensures ConstructFormula(els, 2, Some(ImplicationNode)) == Success(Node(Implication(Leaf('P'), Leaf('Q')), false, "P>Q"))
  {
    var t := Some(ImplicationNode);
    UnaryTree(els, 0, t);
    UnaryTree(els, 1, t);
    ImplicationTree(els, 2, t);
    assert ConstructFormula(els, 2, t).value.text == "P" + ">" + "Q";
    ExampleTexts();
  }

  /** In `P>(P>Q)`, the group under the outer `>` keeps its parentheses. */
  lemma NestedImplicationGroup(els: seq<Element>)
    requires TableOk(els) && |els| > 3
    requires els[0] == [Sym('P')] && els[1] == [Sym('Q')] && els[2] == [Ref(0), Sym('>'), Ref(1)]
    requires els[3] == [Sym('('), Ref(0), Sym('>'), Ref(1), Sym(')')]
    ensures var pq := Implication(Leaf('P'), Leaf('Q'));
      ConstructFormula(els, 3, Some(ImplicationNode)) == Success(Node(pq, true, "(P>Q)"))
  {
    var t := Some(ImplicationNode);
    NestedImplicationInner(els);
    GroupAtThree(els);
    UnaryTree(els, 3, t);
    assert ConstructFormula(els, 3, t).value.text == "(" + "P>Q" + ")";
    ExampleTexts();
  }

  /** `P>(P>Q)` builds, and the inner Implication keeps its parentheses. */
  lemma NestedImplicationKeepsGroup(els: seq<Element>)
    requires els == NestedImplication()
    ensures TableOk(els)
    ensures var pq := Node(Implication(Leaf('P'), Leaf('Q')), true, "(P>Q)");
      ConstructFormula(els, 4, None) == Success(Node(Implication(Leaf('P'), pq), false, "P>(P>Q)"))
  {
    NestedImplicationTable(els);
    NestedImplicationGroup(els);
    NestedImplicationOuter(els);
  }

  /** A `>` element whose operands build acceptable children builds their Implication. */
  lemma ImplicationBuilds(els: seq<Element>, index: nat, parent: Option<NodeType>, l: Node, r: Node)
    requires TableOk(els) && index < |els| && IsBinary(els[index], '>')
    requires els[index][0].handle < |els| && els[index][2].handle < |els|
    requires ConstructFormula(els, els[index][0].handle, Some(ImplicationNode)) == Success(l)
    requires ConstructFormula(els, els[index][2].handle, Some(ImplicationNode)) == Success(r)
    requires ImplicationChildOk(l) && ImplicationChildOk(r)
    ensures ConstructFormula(els, index, parent) == Success(Node(Implication(l, r), false, l.text + ">" + r.text))
  {
    ImplicationTree(els, index, parent);
    ImplicationChildOkIff(els, els[index][0].handle);
    ImplicationChildOkIff(els, els[index][2].handle);
  }

  /** The outer `>` of `P>(P>Q)`: P and the kept group. */
  lemma NestedImplicationOuter(els: seq<Element>)
    requires TableOk(els) && |els| > 4
    requires els[0] == [Sym('P')] && els[4] == [Ref(0), Sym('>'), Ref(3)]
    requires ConstructFormula(els, 3, Some(ImplicationNode)) == Success(Node(Implication(Leaf('P'), Leaf('Q')), true, "(P>Q)"))
    ensures var pq := Node(Implication(Leaf('P'), Leaf('Q')), true, "(P>Q)");
      ConstructFormula(els, 4, None) == Success(Node(Implication(Leaf('P'), pq), false, "P>(P>Q)"))
  {
    var pq := Node(Implication(Leaf('P'), Leaf('Q')), true, "(P>Q)");
    ExampleTexts();
    assert ConstructFormula(els, 0, Some(ImplicationNode)) == Success(Leaf('P')) by {
      UnaryTree(els, 0, Some(ImplicationNode));
    }
    ImplicationBuilds(els, 4, None, Leaf('P'), pq);
  }

  /** The element list of `P&Qv-R`: P, Q, R, `-2`, `0&1`, `4v3`; the root is 5. */
  function MixedJunction(): seq<Element> {
    [[Sym('P')], [Sym('Q')], [Sym('R')], [Sym('-'), Ref(2)],
     [Ref(0), Sym('&'), Ref(1)], [Ref(4), Sym('v'), Ref(3)]]
  }

  lemma MixedJunctionTable(els: seq<Element>)
    requires els == MixedJunction()
    ensures TableOk(els)
  {
    assert ElementOk(els, 0) && ElementOk(els, 1) && ElementOk(els, 2);
    assert ElementOk(els, 3) && ElementOk(els, 4) && ElementOk(els, 5);
  }

  /**
   * `P&Qv-R` is rejected: `&` and `v` share one tier, so P&Q is taken first
   * and becomes the bare left operand of the Disjunction.
   */
  lemma MixedJunctionIsAmbiguous(els: seq<Element>)
    requires els == MixedJunction()
    ensures TableOk(els)
    ensures ConstructFormula(els, 5, None) == Failure(Ambiguous("P&Qv-R"))
  {
    var t := Some(DisjunctionNode);
    MixedJunctionTable(els);
    UnaryTree(els, 0, Some(ConjunctionNode));
    UnaryTree(els, 1, Some(ConjunctionNode));
    JunctionTree(els, 4, t);
    assert ConstructFormula(els, 4, t).value.text == "P" + "&" + "Q";
    UnaryTree(els, 2, Some(NegationNode));
    UnaryTree(els, 3, t);
    assert ConstructFormula(els, 3, t).value.text == "-" + "R";
    JunctionTree(els, 5, None);
    ExampleTexts();
  }

  /** The element list of `(P>(P>Q))`: that of `P>(P>Q)`, then the outer group `(0>3)`; the root is 5. */
  function WrappedNested(): seq<Element> {
    [[Sym('P')], [Sym('Q')], [Ref(0), Sym('>'), Ref(1)],
     [Sym('('), Ref(0), Sym('>'), Ref(1), Sym(')')], [Ref(0), Sym('>'), Ref(3)],
     [Sym('('), Ref(0), Sym('>'), Ref(3), Sym(')')]]
  }

  /** The outer group `(0>3)` of `(P>(P>Q))`, at 5, wraps element 4. */
  lemma WrappedGroupAtFive(els: seq<Element>)
    requires TableOk(els) && |els| > 5
    requires els[0] == [Sym('P')] && els[1] == [Sym('Q')] && els[2] == [Ref(0), Sym('>'), Ref(1)]
    requires els[3] == [Sym('('), Ref(0), Sym('>'), Ref(1), Sym(')')] && els[4] == [Ref(0), Sym('>'), Ref(3)]
    requires els[5] == [Sym('('), Ref(0), Sym('>'), Ref(3), Sym(')')]
    ensures CenterIndex(els, 5) == 4
  {
    assert GroupContent(els[5]) == els[4];
  }

  /** At the root, the outer group of `(P>(P>Q))` drops its parentheses: the string is `P>(P>Q)`. */
  lemma WrappedNestedDropsGroup(els: seq<Element>)
    requires TableOk(els) && |els| > 5
    requires els[0] == [Sym('P')] && els[1] == [Sym('Q')] && els[2] == [Ref(0), Sym('>'), Ref(1)]
    requires els[3] == [Sym('('), Ref(0), Sym('>'), Ref(1), Sym(')')] && els[4] == [Ref(0), Sym('>'), Ref(3)]
    requires els[5] == [Sym('('), Ref(0), Sym('>'), Ref(3), Sym(')')]
    ensures var pq := Node(Implication(Leaf('P'), Leaf('Q')), true, "(P>Q)");
      ConstructFormula(els, 5, None) == Success(Node(Implication(Leaf('P'), pq), false, "P>(P>Q)"))
  {
    var pq := Node(Implication(Leaf('P'), Leaf('Q')), true, "(P>Q)");
    NestedImplicationGroup(els);
    NestedImplicationOuter(els);
    WrappedGroupAtFive(els);
    UnaryTree(els, 5, None);
    assert Body(Implication(Leaf('P'), pq)) == "P" + ">" + "(P>Q)";
    ExampleTexts();
  }

  /** The element list of `P>((P>Q))`: P, Q, `0>1`, `(0>1)`, `((0>1))`, `0>4`; the root is 5. */
  function DoubledGroup(): seq<Element> {
    [[Sym('P')], [Sym('Q')], [Ref(0), Sym('>'), Ref(1)],
     [Sym('('), Ref(0), Sym('>'), Ref(1), Sym(')')],
     [Sym('('), Sym('('), Ref(0), Sym('>'), Ref(1), Sym(')'), Sym(')')],
     [Ref(0), Sym('>'), Ref(4)]]
  }

  /** The group `((0>1))` of `P>((P>Q))`, at 4, wraps the group at 3. */
  lemma DoubledGroupAtFour(els: seq<Element>)
    requires TableOk(els) && |els| > 4
    requires els[0] == [Sym('P')] && els[1] == [Sym('Q')] && els[2] == [Ref(0), Sym('>'), Ref(1)]
    requires els[3] == [Sym('('), Ref(0), Sym('>'), Ref(1), Sym(')')]
    requires els[4] == [Sym('('), Sym('('), Ref(0), Sym('>'), Ref(1), Sym(')'), Sym(')')]
    ensures CenterIndex(els, 4) == 3
  {
    assert GroupContent(els[4]) == els[3];
  }

  /** In `P>((P>Q))`, the group around the group is the tree of `(P>Q)`, with one pair of parentheses. */
  lemma DoubledGroupInner(els: seq<Element>)
    requires TableOk(els) && |els| > 4
    requires els[0] == [Sym('P')] && els[1] == [Sym('Q')] && els[2] == [Ref(0), Sym('>'), Ref(1)]
    requires els[3] == [Sym('('), Ref(0), Sym('>'), Ref(1), Sym(')')]
    requires els[4] == [Sym('('), Sym('('), Ref(0), Sym('>'), Ref(1), Sym(')'), Sym(')')]
    ensures ConstructFormula(els, 4, Some(ImplicationNode)) == Success(Node(Implication(Leaf('P'), Leaf('Q')), true, "(P>Q)"))
  {
    var t := Some(ImplicationNode);
    NestedImplicationGroup(els);
    DoubledGroupAtFour(els);
    UnaryTree(els, 4, t);
    assert Body(Implication(Leaf('P'), Leaf('Q'))) == "P" + ">" + "Q";
    ExampleTexts();
  }

  /** The doubled group of `P>((P>Q))` is the tree of `(P>Q)`, kept once: the string is `P>(P>Q)`. */
  lemma DoubledGroupKeepsOneLayer(els: seq<Element>)
    requires TableOk(els) && |els| > 5
    requires els[0] == [Sym('P')] && els[1] == [Sym('Q')] && els[2] == [Ref(0), Sym('>'), Ref(1)]
    requires els[3] == [Sym('('), Ref(0), Sym('>'), Ref(1), Sym(')')]
    requires els[4] == [Sym('('), Sym('('), Ref(0), Sym('>'), Ref(1), Sym(')'), Sym(')')]
    requires els[5] == [Ref(0), Sym('>'), Ref(4)]
    ensures var pq := Node(Implication(Leaf('P'), Leaf('Q')), true, "(P>Q)");
      ConstructFormula(els, 5, None) == Success(Node(Implication(Leaf('P'), pq), false, "P>(P>Q)"))
  {
    var pq := Node(Implication(Leaf('P'), Leaf('Q')), true, "(P>Q)");
    DoubledGroupInner(els);
    assert ConstructFormula(els, 0, Some(ImplicationNode)) == Success(Leaf('P')) by {
      UnaryTree(els, 0, Some(ImplicationNode));
    }
    ImplicationBuilds(els, 5, None, Leaf('P'), pq);
    ExampleTexts();
  }

  /** Built as written, a group is its centre's tree, its string the centre's wrapped when it keeps parentheses. */
  lemma AsWrittenGroupStep(els: seq<Element>, index: nat, parent: Option<NodeType>, c: Node)
    requires TableOk(els) && index < |els| && IsGroup(els[index])
    requires ConstructFormulaAsWritten(els, CenterIndex(els, index), parent) == Success(c)
    ensures var k := KeepsParentheses(parent, c.formula);
      ConstructFormulaAsWritten(els, index, parent) == Success(Node(c.formula, k, Wrap(k, c.text)))
  {
    assert ElementOk(els, index);
    assert NodeTypeOf(els[index]) == Some(ParenthesesNode);
  }

  /** Built as written, a `>` element whose operands build acceptable children is their Implication. */
  lemma AsWrittenImplicationStep(els: seq<Element>, index: nat, parent: Option<NodeType>, l: Node, r: Node)
    requires TableOk(els) && index < |els| && IsBinary(els[index], '>')
    requires els[index][0].handle < |els| && els[index][2].handle < |els|
    requires ConstructFormulaAsWritten(els, els[index][0].handle, Some(ImplicationNode)) == Success(l)
    requires ConstructFormulaAsWritten(els, els[index][2].handle, Some(ImplicationNode)) == Success(r)
    requires ImplicationChildOk(l) && ImplicationChildOk(r)
    ensures ConstructFormulaAsWritten(els, index, parent) == Success(Node(Implication(l, r), false, l.text + ">" + r.text))
  {
    assert ElementOk(els, index);
    assert NodeTypeOf(els[index]) == Some(ImplicationNode);
  }

  /** Built as written, the inner group of `P>((P>Q))` renders as `(P>Q)`. */
  lemma AsWrittenGroup(els: seq<Element>)
    requires TableOk(els) && |els| > 3
    requires els[0] == [Sym('P')] && els[1] == [Sym('Q')] && els[2] == [Ref(0), Sym('>'), Ref(1)]
    requires els[3] == [Sym('('), Ref(0), Sym('>'), Ref(1), Sym(')')]
    ensures ConstructFormulaAsWritten(els, 3, Some(ImplicationNode))
         == Success(Node(Implication(Leaf('P'), Leaf('Q')), true, "(P>Q)"))
  {
    var t := Some(ImplicationNode);
    assert ConstructFormulaAsWritten(els, 0, t) == Success(Leaf('P'));
    assert ConstructFormulaAsWritten(els, 1, t) == Success(Leaf('Q'));
    AsWrittenImplicationStep(els, 2, t, Leaf('P'), Leaf('Q'));
    GroupAtThree(els);
    AsWrittenGroupStep(els, 3, t, Node(Implication(Leaf('P'), Leaf('Q')), false, "P" + ">" + "Q"));
    ExampleTexts();
  }

  /** Built as written, the group around the group of `P>((P>Q))` renders as `((P>Q))`. */
  lemma AsWrittenDoubledGroup(els: seq<Element>)
    requires TableOk(els) && |els| > 4
    requires els[0] == [Sym('P')] && els[1] == [Sym('Q')] && els[2] == [Ref(0), Sym('>'), Ref(1)]
    requires els[3] == [Sym('('), Ref(0), Sym('>'), Ref(1), Sym(')')]
    requires els[4] == [Sym('('), Sym('('), Ref(0), Sym('>'), Ref(1), Sym(')'), Sym(')')]
    ensures ConstructFormulaAsWritten(els, 4, Some(ImplicationNode))
         == Success(Node(Implication(Leaf('P'), Leaf('Q')), true, "((P>Q))"))
  {
    AsWrittenGroup(els);
    DoubledGroupAtFour(els);
    AsWrittenGroupStep(els, 4, Some(ImplicationNode), Node(Implication(Leaf('P'), Leaf('Q')), true, "(P>Q)"));
    ExampleTexts();
  }

  /** Built as written, the doubled group keeps both layers: the string is `P>((P>Q))`. */
  lemma DoubledGroupAsWritten(els: seq<Element>)
    requires TableOk(els) && |els| > 5
    requires els[0] == [Sym('P')] && els[1] == [Sym('Q')] && els[2] == [Ref(0), Sym('>'), Ref(1)]
    requires els[3] == [Sym('('), Ref(0), Sym('>'), Ref(1), Sym(')')]
    requires els[4] == [Sym('('), Sym('('), Ref(0), Sym('>'), Ref(1), Sym(')'), Sym(')')]
    requires els[5] == [Ref(0), Sym('>'), Ref(4)]
    ensures var pq := Node(Implication(Leaf('P'), Leaf('Q')), true, "((P>Q))");
      ConstructFormulaAsWritten(els, 5, None) == Success(Node(Implication(Leaf('P'), pq), false, "P>((P>Q))"))
  {
    var pq := Node(Implication(Leaf('P'), Leaf('Q')), true, "((P>Q))");
    AsWrittenDoubledGroup(els);
    assert ConstructFormulaAsWritten(els, 0, Some(ImplicationNode)) == Success(Leaf('P'));
    AsWrittenImplicationStep(els, 5, None, Leaf('P'), pq);
    ExampleTexts();
  }

  /** The strings the examples join, spelled out. */
  /** The element list of `P>Q`: P, Q, `0>1`; the root is 2. */
  function PlainImplication(): seq<Element> {
    [[Sym('P')], [Sym('Q')], [Ref(0), Sym('>'), Ref(1)]]
  }

  /** The element list of `(P>Q)`: P, Q, `0>1`, `(0>1)`; the root is 3. */
  function GroupedImplication(): seq<Element> {
    [[Sym('P')], [Sym('Q')], [Ref(0), Sym('>'), Ref(1)], [Sym('('), Ref(0), Sym('>'), Ref(1), Sym(')')]]
  }

  /** A lone proposition builds its leaf. */
  lemma LoneAtomBuilds(els: seq<Element>, c: char)
    requires c in "PQRS" && els == [[Sym(c)]]
    ensures TableOk(els)
    ensures ConstructFormula(els, 0, None) == Success(Leaf(c))
  {
    assert ElementOk(els, 0);
    UnaryTree(els, 0, None);
  }

  /** `P>Q` builds the Implication of P and Q, unparenthesised. */
  lemma PlainImplicationBuilds(els: seq<Element>)
    requires els == PlainImplication()
    ensures TableOk(els)
    ensures ConstructFormula(els, 2, None) == Success(Node(Implication(Leaf('P'), Leaf('Q')), false, "P>Q"))
  {
    assert ElementOk(els, 0) && ElementOk(els, 1) && ElementOk(els, 2);
    var t := Some(ImplicationNode);
    UnaryTree(els, 0, t);
    UnaryTree(els, 1, t);
    ExampleTexts();
    ImplicationBuilds(els, 2, None, Leaf('P'), Leaf('Q'));
  }

  /** `(P>Q)` at the top builds the tree of `P>Q`: with no parent, the group drops its parentheses. */
  lemma GroupedImplicationDropsGroup(els: seq<Element>)
    requires TableOk(els) && |els| > 3
    requires els[0] == [Sym('P')] && els[1] == [Sym('Q')] && els[2] == [Ref(0), Sym('>'), Ref(1)]
    requires els[3] == [Sym('('), Ref(0), Sym('>'), Ref(1), Sym(')')]
    ensures ConstructFormula(els, 3, None) == Success(Node(Implication(Leaf('P'), Leaf('Q')), false, "P>Q"))
  {
    var t := Some(ImplicationNode);
    UnaryTree(els, 0, t);
    UnaryTree(els, 1, t);
    ExampleTexts();
    ImplicationBuilds(els, 2, None, Leaf('P'), Leaf('Q'));
    GroupAtThree(els);
    UnaryTree(els, 3, None);
  }

  /** The whole list of `(P>Q)` is valid, and its root builds `P>Q`. */
  lemma GroupedImplicationBuilds(els: seq<Element>)
    requires els == GroupedImplication()
    ensures TableOk(els)
    ensures ConstructFormula(els, 3, None) == Success(Node(Implication(Leaf('P'), Leaf('Q')), false, "P>Q"))
  {
    assert ElementOk(els, 0) && ElementOk(els, 1) && ElementOk(els, 2);
    assert GroupContent(els[3]) == els[2];
    assert ElementOk(els, 3);
    GroupedImplicationDropsGroup(els);
  }

  /** A group builds its centre's formula, parenthesised exactly when its parent keeps it, around the body. */
  lemma GroupBuilds(els: seq<Element>, index: nat, parent: Option<NodeType>, c: Node)
    requires TableOk(els) && index < |els| && IsGroup(els[index])
    requires ConstructFormula(els, CenterIndex(els, index), parent) == Success(c)
    ensures var k := KeepsParentheses(parent, c.formula);
      ConstructFormula(els, index, parent) == Success(Node(c.formula, k, Wrap(k, Body(c.formula))))
  {
    assert ElementOk(els, index);
    assert NodeTypeOf(els[index]) == Some(ParenthesesNode);
  }

  /** The element list of `(((P)))`: P, `(P)`, `((P))`, `(((P)))`; the root is 3. */
  function TripleGroup(): seq<Element> {
    [[Sym('P')], [Sym('('), Sym('P'), Sym(')')], [Sym('('), Sym('('), Sym('P'), Sym(')'), Sym(')')],
     [Sym('('), Sym('('), Sym('('), Sym('P'), Sym(')'), Sym(')'), Sym(')')]]
  }

  /** Each layer of `(((P)))` wraps the layer below it. */
  lemma TripleGroupCentres(els: seq<Element>)
    requires els == TripleGroup()
    ensures TableOk(els)
    ensures CenterIndex(els, 1) == 0 && CenterIndex(els, 2) == 1 && CenterIndex(els, 3) == 2
  {
    assert GroupContent(els[1]) == els[0];
    assert GroupContent(els[2]) == els[1];
    assert GroupContent(els[3]) == els[2];
    assert ElementOk(els, 0) && ElementOk(els, 1) && ElementOk(els, 2) && ElementOk(els, 3);
  }

  /** `(((P)))` builds the leaf P: a proposition never keeps parentheses. */
  lemma TripleGroupDropsAll(els: seq<Element>)
    requires els == TripleGroup()
    ensures TableOk(els)
    ensures ConstructFormula(els, 3, None) == Success(Leaf('P'))
  {
    TripleGroupCentres(els);
    UnaryTree(els, 0, None);
    GroupBuilds(els, 1, None, Leaf('P'));
    GroupBuilds(els, 2, None, Leaf('P'));
    GroupBuilds(els, 3, None, Leaf('P'));
  }

  /** The element list of `(-(R))`: R, `(R)`, `-1`, `(-1)`; the root is 3. */
  function GroupedNegation(): seq<Element> {
    [[Sym('R')], [Sym('('), Sym('R'), Sym(')')], [Sym('-'), Ref(1)], [Sym('('), Sym('-'), Ref(1), Sym(')')]]
  }

  lemma GroupedNegationCentres(els: seq<Element>)
    requires els == GroupedNegation()
    ensures TableOk(els)
    ensures CenterIndex(els, 1) == 0 && CenterIndex(els, 3) == 2
  {
    assert GroupContent(els[1]) == els[0];
    assert GroupContent(els[3]) == els[2];
    assert ElementOk(els, 0) && ElementOk(els, 1) && ElementOk(els, 2) && ElementOk(els, 3);
  }

  /** `(-(R))` builds the Negation of R, with neither pair of parentheses: `-R`. */
  lemma GroupedNegationDropsGroups(els: seq<Element>)
    requires els == GroupedNegation()
    ensures TableOk(els)
    ensures ConstructFormula(els, 3, None) == Success(Node(Negation(Leaf('R')), false, "-R"))
  {
    var t := Some(NegationNode);
    GroupedNegationCentres(els);
    UnaryTree(els, 0, t);
    GroupBuilds(els, 1, t, Leaf('R'));
    UnaryTree(els, 2, t);
    assert ConstructFormula(els, 2, t) == Success(Node(Negation(Leaf('R')), false, "-R")) by {
      ExampleTexts();
    }
    GroupBuilds(els, 3, None, Node(Negation(Leaf('R')), false, "-R"));
  }

  /** The element list of `(P&Q)`: P, Q, `0&1`, `(0&1)`; the root is 3. */
  function GroupedConjunction(): seq<Element> {
    [[Sym('P')], [Sym('Q')], [Ref(0), Sym('&'), Ref(1)], [Sym('('), Ref(0), Sym('&'), Ref(1), Sym(')')]]
  }

  /** In `(P&Q)`, the `&` element builds the Conjunction of P and Q. */
  lemma GroupedConjunctionInner(els: seq<Element>)
    requires TableOk(els) && |els| > 2
    requires els[0] == [Sym('P')] && els[1] == [Sym('Q')] && els[2] == [Ref(0), Sym('&'), Ref(1)]
    ensures ConstructFormula(els, 2, None) == Success(Node(Conjunction(Leaf('P'), Leaf('Q')), false, "P&Q"))
  {
    var t := Some(ConjunctionNode);
    UnaryTree(els, 0, t);
    UnaryTree(els, 1, t);
    JunctionTree(els, 2, None);
    ExampleTexts();
  }

  /** `(P&Q)` builds the Conjunction of P and Q, without the outer parentheses. */
  lemma GroupedConjunctionDropsGroup(els: seq<Element>)
    requires els == GroupedConjunction()
    ensures TableOk(els)
    ensures ConstructFormula(els, 3, None) == Success(Node(Conjunction(Leaf('P'), Leaf('Q')), false, "P&Q"))
  {
    assert GroupContent(els[3]) == els[2];
    assert ElementOk(els, 0) && ElementOk(els, 1) && ElementOk(els, 2) && ElementOk(els, 3);
    GroupedConjunctionInner(els);
    GroupBuilds(els, 3, None, Node(Conjunction(Leaf('P'), Leaf('Q')), false, "P&Q"));
  }

  /** The element list of `PvQ`: P, Q, `0v1`; the root is 2. */
  function PlainDisjunction(): seq<Element> {
    [[Sym('P')], [Sym('Q')], [Ref(0), Sym('v'), Ref(1)]]
  }

  /** `PvQ` builds the Disjunction of P and Q. */
  lemma PlainDisjunctionBuilds(els: seq<Element>)
    requires els == PlainDisjunction()
    ensures TableOk(els)
    ensures ConstructFormula(els, 2, None) == Success(Node(Disjunction(Leaf('P'), Leaf('Q')), false, "PvQ"))
  {
    assert ElementOk(els, 0) && ElementOk(els, 1) && ElementOk(els, 2);
    var t := Some(DisjunctionNode);
    UnaryTree(els, 0, t);
    UnaryTree(els, 1, t);
    JunctionTree(els, 2, None);
    ExampleTexts();
  }

  /** The element list of `(P)>Q`: P, Q, `(P)`, `2>1`; the root is 3. */
  function GroupedAntecedent(): seq<Element> {
    [[Sym('P')], [Sym('Q')], [Sym('('), Sym('P'), Sym(')')], [Ref(2), Sym('>'), Ref(1)]]
  }

  /** `(P)>Q` builds the Implication of P and Q: the parentheses around P go. */
  lemma GroupedAntecedentBuilds(els: seq<Element>)
    requires els == GroupedAntecedent()
    ensures TableOk(els)
    ensures ConstructFormula(els, 3, None) == Success(Node(Implication(Leaf('P'), Leaf('Q')), false, "P>Q"))
  {
    assert GroupContent(els[2]) == els[0];
    assert ElementOk(els, 0) && ElementOk(els, 1) && ElementOk(els, 2) && ElementOk(els, 3);
    var t := Some(ImplicationNode);
    UnaryTree(els, 0, t);
    UnaryTree(els, 1, t);
    GroupBuilds(els, 2, t, Leaf('P'));
    ExampleTexts();
    ImplicationBuilds(els, 3, None, Leaf('P'), Leaf('Q'));
  }

  /** The string concatenations the lemmas of this module need, spelled out once. */
  lemma ExampleTexts()
    ensures "P" + "&" + "Q" == "P&Q"
    ensures "P&Q" + "&" + "R" == "P&Q&R"
    ensures "S" + "&" + "Q" == "S&Q"
    ensures "P" + ">" + "S&Q" == "P>S&Q"
    ensures "P>S&Q" + ">" + "R" == "P>S&Q>R"
    ensures "P" + ">" + "Q" == "P>Q"
    ensures "(" + "P>Q" + ")" == "(P>Q)"
    ensures "P" + ">" + "(P>Q)" == "P>(P>Q)"
    ensures "-" + "R" == "-R"
    ensures "P&Q" + "v" + "-R" == "P&Qv-R"
    ensures "(" + "(P>Q)" + ")" == "((P>Q))"
    ensures "P" + ">" + "((P>Q))" == "P>((P>Q))"
    ensures "P" + "v" + "Q" == "PvQ"
  {
  }
}
