/**
 * The propositional formula parser of src/models/formulaParser.js.
 *
 * Parsing runs in two phases. Flattening rewrites the working string tier by
 * tier (atoms, parenthesised groups, negations, conjunctions/disjunctions,
 * implications), replacing every match by a handle into a de-duplicated list
 * of elements. Tree building then walks the element list from the root
 * handle, threading the parent's node type down so that each node decides
 * whether it keeps its parentheses, and rejects ambiguous chains.
 *
 * The working string is a sequence of tokens: a character of the input, or a
 * handle. The source writes handles as decimal digits inside the string, so
 * two adjacent handles fuse into one number; here they stay two tokens.
 */
module FormulaParser {
  import opened Wrappers
  import opened Numerals

  // ---------------------------------------------------------------------
  // Working strings and the element list
  // ---------------------------------------------------------------------

  /** One symbol of the working string. */
  datatype Token = Sym(c: char) | Ref(handle: nat)

  /** The text of one element of the element list. */
  type Element = seq<Token>

  /** The input string as a working string. */
  function Chars(s: string): (ts: seq<Token>)
    ensures |ts| == |s|
    ensures forall i :: 0 <= i < |s| ==> ts[i] == Sym(s[i])
  {
    if s == [] then [] else [Sym(s[0])] + Chars(s[1..])
  }

  /** A working string as the source would print it: handles in decimal. */
  function TokensText(ts: seq<Token>): string
  {
    if ts == [] then ""
    else (match ts[0] case Sym(c) => [c] case Ref(h) => NatString(h)) + TokensText(ts[1..])
  }

  predicate IsAtom(t: Token) {
    t.Sym? && t.c in "PQRS"
  }

  predicate IsParen(t: Token) {
    t == Sym('(') || t == Sym(')')
  }

  /** Every handle in the working string names an existing element. */
  predicate RefsBelow(ts: seq<Token>, n: nat) {
    forall i :: 0 <= i < |ts| && ts[i].Ref? ==> ts[i].handle < n
  }

  /** `list.indexOf(x)`: the first position of `x`, or -1. */
  function IndexOf<T(==)>(s: seq<T>, x: T): (i: int)
    ensures -1 <= i < |s|
    ensures i == -1 <==> x !in s
    ensures 0 <= i ==> s[i] == x && x !in s[..i]
  {
    if s == [] then -1
    else if s[0] == x then 0
    else var j := IndexOf(s[1..], x); if j == -1 then -1 else j + 1
  }

  predicate NoDuplicates<T(==)>(s: seq<T>) {
    forall i, j :: 0 <= i < j < |s| ==> s[i] != s[j]
  }

  /** A parenthesised element: `(`, the text of another element, `)`. */
  predicate IsGroup(e: Element) {
    |e| >= 3 && e[0] == Sym('(') && e[|e| - 1] == Sym(')')
  }

  function GroupContent(e: Element): Element
    requires IsGroup(e)
  {
    e[1..|e| - 1]
  }

  predicate IsBinary(e: Element, op: char) {
    |e| == 3 && e[0].Ref? && e[1] == Sym(op) && e[2].Ref?
  }

  /**
   * The element at index k has one of the shapes flattening produces, and
   * every handle it mentions (directly, or through the element a group
   * wraps) was created before it.
   */
  predicate ElementOk(els: seq<Element>, k: nat)
    requires k < |els|
  {
    var e := els[k];
    || (|e| == 1 && IsAtom(e[0]))
    || (IsGroup(e) && GroupContent(e) in els[..k])
    || (|e| == 2 && e[0] == Sym('-') && e[1].Ref? && e[1].handle < k)
    || ((IsBinary(e, '&') || IsBinary(e, 'v') || IsBinary(e, '>'))
        && e[0].handle < k && e[2].handle < k)
  }

  predicate TableOk(els: seq<Element>) {
    forall k :: 0 <= k < |els| ==> ElementOk(els, k)
  }

  /**
   * Adds an element to the list unless it is already there (line 31-35 of
   * the source); returns the list and the element's handle.
   */
  function Intern(els: seq<Element>, e: Element): (r: (seq<Element>, nat))
    ensures r.1 < |r.0| && r.0[r.1] == e
    ensures e in els ==> r.0 == els && r.1 == IndexOf(els, e)
    ensures e !in els ==> r.0 == els + [e] && r.1 == |els|
  {
    var i := IndexOf(els, e);
    if i == -1 then (els + [e], |els|) else (els, i)
  }

  /** Interning an element of an admissible shape keeps the table well formed and duplicate-free. */
  lemma InternKeepsTable(els: seq<Element>, e: Element)
    requires TableOk(els) && NoDuplicates(els)
    requires ElementOk(els + [e], |els|)
    ensures TableOk(Intern(els, e).0) && NoDuplicates(Intern(els, e).0)
  {
    var els' := Intern(els, e).0;
    forall k | 0 <= k < |els'| ensures ElementOk(els', k) {
      if k < |els| {
        assert ElementOk(els, k);
        assert els'[..k] == els[..k];
      } else {
        assert els' == els + [e];
      }
    }
  }

  // ---------------------------------------------------------------------
  // The five substitution rules, as recognisers
  // ---------------------------------------------------------------------

  /** The entries of SUBSTITUTION_RULES, in the order they are applied. */
  datatype Tier = Atoms | Groups | Negations | Junctions | Implications

  const SubstitutionRules: seq<Tier> := [Atoms, Groups, Negations, Junctions, Implications]

  /** The first position at or after `k` holding a parenthesis, or |ts|. */
  function NextParen(ts: seq<Token>, k: nat): (j: nat)
    requires k <= |ts|
    ensures k <= j <= |ts|
    ensures j < |ts| ==> IsParen(ts[j])
    ensures forall m :: k <= m < j ==> !IsParen(ts[m])
    decreases |ts| - k
  {
    if k == |ts| || IsParen(ts[k]) then k else NextParen(ts, k + 1)
  }

  /** The length of the match of `tier` that starts at position i, or 0. */
  function MatchLength(tier: Tier, ts: seq<Token>, i: nat): (len: nat)
    requires i < |ts|
    ensures len <= |ts| - i
  {
    match tier
    case Atoms => if IsAtom(ts[i]) then 1 else 0
    case Groups =>
      if ts[i] != Sym('(') then 0
      else
        var j := NextParen(ts, i + 1);
        if i + 1 < j < |ts| && ts[j] == Sym(')') then j - i + 1 else 0
    case Negations =>
      if i + 1 < |ts| && ts[i] == Sym('-') && ts[i + 1].Ref? then 2 else 0
    case Junctions =>
      if i + 2 < |ts| && ts[i].Ref? && (ts[i + 1] == Sym('&') || ts[i + 1] == Sym('v')) && ts[i + 2].Ref?
      then 3 else 0
    case Implications =>
      if i + 2 < |ts| && ts[i].Ref? && ts[i + 1] == Sym('>') && ts[i + 2].Ref? then 3 else 0
  }

  /** `referenceString.match(rule)`: the leftmost position at or after `from` where `tier` matches. */
  function FirstMatch(tier: Tier, ts: seq<Token>, from: nat): (r: Option<nat>)
    requires from <= |ts|
    ensures r.Some? ==> from <= r.value < |ts| && MatchLength(tier, ts, r.value) > 0
    ensures r.Some? ==> forall j :: from <= j < r.value ==> MatchLength(tier, ts, j) == 0
    ensures r.None? ==> forall j :: from <= j < |ts| ==> MatchLength(tier, ts, j) == 0
    decreases |ts| - from
  {
    if from == |ts| then None
    else if MatchLength(tier, ts, from) > 0 then Some(from)
    else FirstMatch(tier, ts, from + 1)
  }

  // ---------------------------------------------------------------------
  // Flattening, as a specification
  // ---------------------------------------------------------------------

  datatype ParseError =
    | NotWellFormed(input: string)   // "Formula is not well-formed: <input>"
    | Ambiguous(text: string)        // "Formula is ambiguous: <text>"
    | UndefinedElement               // the source reads an element that does not exist (a TypeError)

  /** A working string together with the element list built so far. */
  datatype Flat = Flat(tokens: seq<Token>, elements: seq<Element>)

  /** What `analyzeFormulaString` returns: the element list and the root handle. */
  datatype Analysis = Analysis(elements: seq<Element>, root: nat)

  function AtomCount(ts: seq<Token>): nat
  {
    if ts == [] then 0 else (if IsAtom(ts[0]) then 1 else 0) + AtomCount(ts[1..])
  }

  lemma {:induction false} AtomCountAppend(a: seq<Token>, b: seq<Token>)
    ensures AtomCount(a + b) == AtomCount(a) + AtomCount(b)
    decreases |a|
  {
    if a != [] {
      assert (a + b)[0] == a[0];
      assert (a + b)[1..] == a[1..] + b;
      AtomCountAppend(a[1..], b);
    } else {
      assert a + b == b;
    }
  }

  /** Replacing ts[i..i+len] by one handle. */
  function Splice(ts: seq<Token>, i: nat, len: nat, h: nat): (r: seq<Token>)
    requires i + len <= |ts|
    ensures |r| == |ts| - len + 1
  {
    ts[..i] + [Ref(h)] + ts[i + len..]
  }

  /** Splicing in a handle below n keeps every handle of the string below n. */
  lemma SpliceRefsBelow(ts: seq<Token>, i: nat, len: nat, h: nat, n: nat)
    requires i + len <= |ts| && RefsBelow(ts, n) && h < n
    ensures RefsBelow(Splice(ts, i, len, h), n)
  {
    var r := Splice(ts, i, len, h);
    forall j | 0 <= j < |r| && r[j].Ref? ensures r[j].handle < n {
      if j < i {
        assert r[j] == ts[j];
      } else if j > i {
        assert r[j] == ts[j - 1 + len];
      }
    }
  }

  /** Substituting an atom lowers the number of atoms; any other substitution shortens the string. */
  lemma SpliceCountsAtoms(tier: Tier, ts: seq<Token>, i: nat, len: nat, h: nat)
    requires i < |ts| && len == MatchLength(tier, ts, i) && len > 0
    ensures |Splice(ts, i, len, h)| < |ts| || AtomCount(Splice(ts, i, len, h)) < AtomCount(ts)
  {
    if tier == Atoms {
      assert ts == ts[..i] + [ts[i]] + ts[i + 1..];
      AtomCountAppend(ts[..i] + [ts[i]], ts[i + 1..]);
      AtomCountAppend(ts[..i], [ts[i]]);
      AtomCountAppend(ts[..i] + [Ref(h)], ts[i + 1..]);
      AtomCountAppend(ts[..i], [Ref(h)]);
    }
  }

  /** The facts every stage of flattening keeps, from (ts, els) to its result f. */
  predicate Keeps(ts: seq<Token>, els: seq<Element>, f: Flat) {
    && els <= f.elements
    && TableOk(f.elements)
    && NoDuplicates(f.elements)
    && RefsBelow(f.tokens, |f.elements|)
    && |f.tokens| <= |ts|
    && (|ts| > 0 ==> |f.tokens| > 0)
  }

  /**
   * One pass of the inner `while` loop: the match of length `len` at `i` is
   * replaced by the handle of its element. A group's content is analysed
   * first, recursively, and the group element is `(` + the text of the
   * content's root element + `)`.
   */
  function Substitute(tier: Tier, ts: seq<Token>, els: seq<Element>, i: nat, len: nat): (r: Result<Flat, ParseError>)
    requires TableOk(els) && NoDuplicates(els) && RefsBelow(ts, |els|)
    requires i < |ts| && len == MatchLength(tier, ts, i) && len > 0
    ensures r.Success? ==> Keeps(ts, els, r.value)
    ensures r.Success? ==> |r.value.tokens| < |ts| || AtomCount(r.value.tokens) < AtomCount(ts)
    decreases |ts|, 0, 0
  {
    if tier == Groups then
      var content := ts[i + 1..i + len - 1];
      match Flatten(content, els)
      case Failure(e) => Failure(e)
      case Success(a) =>
        assert ElementOk(a.elements, a.root);
        var e := [Sym('(')] + a.elements[a.root] + [Sym(')')];
        assert GroupContent(e) == a.elements[a.root];
        assert (a.elements + [e])[..|a.elements|] == a.elements;
        var (els', h) := Intern(a.elements, e);
        InternKeepsTable(a.elements, e);
        SpliceRefsBelow(ts, i, len, h, |els'|);
        Success(Flat(Splice(ts, i, len, h), els'))
    else
      var e := ts[i..i + len];
      assert (els + [e])[..|els|] == els;
      assert e[0] == ts[i] && (len > 1 ==> e[1] == ts[i + 1]) && (len > 2 ==> e[2] == ts[i + 2]);
      var (els', h) := Intern(els, e);
      InternKeepsTable(els, e);
      SpliceRefsBelow(ts, i, len, h, |els'|);
      SpliceCountsAtoms(tier, ts, i, len, h);
      Success(Flat(Splice(ts, i, len, h), els'))
  }

  /** The inner `while` loop of one tier: substitute the leftmost match until none is left. */
  function Sweep(tier: Tier, ts: seq<Token>, els: seq<Element>): (r: Result<Flat, ParseError>)
    requires TableOk(els) && NoDuplicates(els) && RefsBelow(ts, |els|)
    ensures r.Success? ==> Keeps(ts, els, r.value)
    ensures r.Success? ==> FirstMatch(tier, r.value.tokens, 0).None?
    decreases |ts|, 1, AtomCount(ts)
  {
    match FirstMatch(tier, ts, 0)
    case None => Success(Flat(ts, els))
    case Some(i) =>
      match Substitute(tier, ts, els, i, MatchLength(tier, ts, i))
      case Failure(e) => Failure(e)
      case Success(f) => Sweep(tier, f.tokens, f.elements)
  }

  /** The `forEach` over SUBSTITUTION_RULES, from rule k on. */
  function Passes(k: nat, ts: seq<Token>, els: seq<Element>): (r: Result<Flat, ParseError>)
    requires k <= 5
    requires TableOk(els) && NoDuplicates(els) && RefsBelow(ts, |els|)
    ensures r.Success? ==> Keeps(ts, els, r.value)
    decreases |ts|, 2, 5 - k
  {
    if k == 5 then Success(Flat(ts, els))
    else
      match Sweep(SubstitutionRules[k], ts, els)
      case Failure(e) => Failure(e)
      case Success(f) => Passes(k + 1, f.tokens, f.elements)
  }

  /**
   * `analyzeFormulaString`: all five rules, then the residue must be a single
   * handle (the root). The source tests the residue with `isNaN`, which also
   * accepts the empty string (as 0).
   */
  function Flatten(ts: seq<Token>, els: seq<Element>): (r: Result<Analysis, ParseError>)
    requires TableOk(els) && NoDuplicates(els) && RefsBelow(ts, |els|)
    ensures r.Success? ==> els <= r.value.elements && TableOk(r.value.elements) && NoDuplicates(r.value.elements)
    ensures r.Success? && ts != [] ==> r.value.root < |r.value.elements|
    decreases |ts|, 3, 0
  {
    match Passes(0, ts, els)
    case Failure(e) => Failure(e)
    case Success(f) =>
      if f.tokens == [] then Success(Analysis(f.elements, 0))
      else if |f.tokens| == 1 && f.tokens[0].Ref? then Success(Analysis(f.elements, f.tokens[0].handle))
      else Failure(NotWellFormed(TokensText(ts)))
  }

  // ---------------------------------------------------------------------
  // Flattening, as the source runs it
  // ---------------------------------------------------------------------

  /**
   * `analyzeFormulaString`: a loop over the five rules with an inner loop
   * that splices the leftmost match out of the working string and injects
   * its handle; a group's content is analysed by a recursive call, whose
   * element list replaces the caller's.
   */
  method AnalyzeFormulaString(formula: seq<Token>, elementList: seq<Element>) returns (r: Result<Analysis, ParseError>)
    requires TableOk(elementList) && NoDuplicates(elementList) && RefsBelow(formula, |elementList|)
    ensures r == Flatten(formula, elementList)
    decreases |formula|, 1
  {
    var reference := formula;
    var elements := elementList;
    ghost var goal := Passes(0, formula, elementList);
    var ruleIndex := 0;
    while ruleIndex < 5
      invariant 0 <= ruleIndex <= 5
      invariant TableOk(elements) && NoDuplicates(elements) && RefsBelow(reference, |elements|)
      invariant elementList <= elements
      invariant |reference| <= |formula| && (|formula| > 0 ==> |reference| > 0)
      invariant Passes(ruleIndex, reference, elements) == goal
    {
      var rule := SubstitutionRules[ruleIndex];
      var match_ := FirstMatch(rule, reference, 0);
      while match_.Some?
        invariant TableOk(elements) && NoDuplicates(elements) && RefsBelow(reference, |elements|)
        invariant elementList <= elements
        invariant |reference| <= |formula| && (|formula| > 0 ==> |reference| > 0)
        invariant match_ == FirstMatch(rule, reference, 0)
        invariant (match Sweep(rule, reference, elements)
                   case Failure(e) => Failure(e)
                   case Success(f) => Passes(ruleIndex + 1, f.tokens, f.elements)) == goal
        decreases |reference|, AtomCount(reference)
      {
        var i := match_.value;
        var step := SubstituteMatch(rule, reference, elements, i);
        if step.Failure? {
          return Failure(step.error);
        }
        reference, elements := step.value.tokens, step.value.elements;
        match_ := FirstMatch(rule, reference, 0);
      }
      ruleIndex := ruleIndex + 1;
    }
    if reference == [] {
      r := Success(Analysis(elements, 0));
    } else if |reference| == 1 && reference[0].Ref? {
      r := Success(Analysis(elements, reference[0].handle));
    } else {
      r := Failure(NotWellFormed(TokensText(formula)));
    }
  }

  /**
   * The body of the inner loop: splice out the match at i, analyse a
   * group's content recursively, intern the element, inject its handle.
   */
  method SubstituteMatch(rule: Tier, reference: seq<Token>, elementList: seq<Element>, i: nat)
    returns (r: Result<Flat, ParseError>)
    requires TableOk(elementList) && NoDuplicates(elementList) && RefsBelow(reference, |elementList|)
    requires i < |reference| && MatchLength(rule, reference, i) > 0
    ensures r == Substitute(rule, reference, elementList, i, MatchLength(rule, reference, i))
    decreases |reference|, 0
  {
    var len := MatchLength(rule, reference, i);
    var elements := elementList;
    var element := reference[i..i + len];
    if rule == Groups {
      var analysis := AnalyzeFormulaString(reference[i + 1..i + len - 1], elements);
      if analysis.Failure? {
        return Failure(analysis.error);
      }
      elements := analysis.value.elements;
      element := [Sym('(')] + elements[analysis.value.root] + [Sym(')')];
    }
    var elementIndex := IndexOf(elements, element);
    if elementIndex == -1 {
      elementIndex := |elements|;
      elements := elements + [element];
    }
    r := Success(Flat(reference[..i] + [Ref(elementIndex)] + reference[i + len..], elements));
  }

  // ---------------------------------------------------------------------
  // Formula trees
  // ---------------------------------------------------------------------

  /** FORMULA_NODE_TYPE. */
  datatype NodeType =
    | PropositionNode | ParenthesesNode | NegationNode
    | ConjunctionNode | DisjunctionNode | ImplicationNode

  /** A formula tree; no node is of type Parentheses, which only exists while the tree is built. */
  datatype Formula =
    | Proposition(symbol: char)
    | Negation(right: Node)
    | Conjunction(left: Node, right: Node)
    | Disjunction(left: Node, right: Node)
    | Implication(left: Node, right: Node)

  /** A node as the source returns it: the formula, `hasParentheses`, and the rendered `string`. */
  datatype Node = Node(formula: Formula, hasParentheses: bool, text: string)

  function TypeOf(f: Formula): NodeType {
    match f
    case Proposition(_) => PropositionNode
    case Negation(_) => NegationNode
    case Conjunction(_, _) => ConjunctionNode
    case Disjunction(_, _) => DisjunctionNode
    case Implication(_, _) => ImplicationNode
  }

  predicate IsJunction(f: Formula) {
    f.Conjunction? || f.Disjunction?
  }

  /** `FORMULA_NODES.find(node => element.match(node.rule))`: which node an element builds. */
  function NodeTypeOf(e: Element): Option<NodeType> {
    if |e| == 1 && IsAtom(e[0]) then Some(PropositionNode)
    else if IsGroup(e) then Some(ParenthesesNode)
    else if |e| == 2 && e[0] == Sym('-') && e[1].Ref? then Some(NegationNode)
    else if IsBinary(e, '&') then Some(ConjunctionNode)
    else if IsBinary(e, 'v') then Some(DisjunctionNode)
    else if IsBinary(e, '>') then Some(ImplicationNode)
    else None
  }

  /**
   * Whether a parenthesised formula keeps its parentheses below `parent`:
   * never at the root, never around a Proposition or a Negation, never
   * around a Conjunction or Disjunction directly under an Implication.
   */
  predicate KeepsParentheses(parent: Option<NodeType>, f: Formula) {
    && parent.Some?
    && !f.Proposition? && !f.Negation?
    && !(parent == Some(ImplicationNode) && IsJunction(f))
  }

  /** The rendering of a node without its own parentheses. */
  function Body(f: Formula): string {
    match f
    case Proposition(c) => [c]
    case Negation(r) => "-" + r.text
    case Conjunction(l, r) => l.text + "&" + r.text
    case Disjunction(l, r) => l.text + "v" + r.text
    case Implication(l, r) => l.text + ">" + r.text
  }

  function Wrap(parenthesised: bool, s: string): string {
    if parenthesised then "(" + s + ")" else s
  }

  /** Every node's string is its body, in one pair of parentheses exactly when it has them. */
  ghost predicate Rendered(n: Node) {
    && n.text == Wrap(n.hasParentheses, Body(n.formula))
    && match n.formula
       case Proposition(_) => true
       case Negation(r) => Rendered(r)
       case Conjunction(l, r) => Rendered(l) && Rendered(r)
       case Disjunction(l, r) => Rendered(l) && Rendered(r)
       case Implication(l, r) => Rendered(l) && Rendered(r)
  }

  /** No Conjunction/Disjunction has an unparenthesised Conjunction/Disjunction child, no Implication an unparenthesised Implication child. */
  ghost predicate Unambiguous(n: Node) {
    match n.formula
    case Proposition(_) => true
    case Negation(r) => Unambiguous(r)
    case Conjunction(l, r) => JunctionChildOk(l) && JunctionChildOk(r) && Unambiguous(l) && Unambiguous(r)
    case Disjunction(l, r) => JunctionChildOk(l) && JunctionChildOk(r) && Unambiguous(l) && Unambiguous(r)
    case Implication(l, r) => ImplicationChildOk(l) && ImplicationChildOk(r) && Unambiguous(l) && Unambiguous(r)
  }

  predicate JunctionChildOk(n: Node) {
    n.hasParentheses || !IsJunction(n.formula)
  }

  predicate ImplicationChildOk(n: Node) {
    n.hasParentheses || !n.formula.Implication?
  }

  /** Every node that has parentheses sits where KeepsParentheses allows them. */
  ghost predicate ParenthesesAllowed(n: Node, parent: Option<NodeType>) {
    && (n.hasParentheses ==> KeepsParentheses(parent, n.formula))
    && match n.formula
       case Proposition(_) => true
       case Negation(r) => ParenthesesAllowed(r, Some(NegationNode))
       case Conjunction(l, r) => ParenthesesAllowed(l, Some(ConjunctionNode)) && ParenthesesAllowed(r, Some(ConjunctionNode))
       case Disjunction(l, r) => ParenthesesAllowed(l, Some(DisjunctionNode)) && ParenthesesAllowed(r, Some(DisjunctionNode))
       case Implication(l, r) => ParenthesesAllowed(l, Some(ImplicationNode)) && ParenthesesAllowed(r, Some(ImplicationNode))
  }

  lemma IndexOfBelow<T>(s: seq<T>, x: T, k: nat)
    requires k <= |s| && x in s[..k]
    ensures 0 <= IndexOf(s, x) < k
  {
  }

  /** The handle of the element a group element wraps. */
  function CenterIndex(els: seq<Element>, index: nat): (c: nat)
    requires TableOk(els) && index < |els| && IsGroup(els[index])
    ensures c < index && els[c] == GroupContent(els[index])
  {
    assert ElementOk(els, index);
    IndexOfBelow(els, GroupContent(els[index]), index);
    IndexOf(els, GroupContent(els[index]))
  }

  /**
   * `constructFormula`, with the evidently intended rendering of a
   * parenthesised element: its string wraps the body of the centre once,
   * whatever the number of parentheses written around it.
   */
  function ConstructFormula(els: seq<Element>, index: nat, parent: Option<NodeType>): (r: Result<Node, ParseError>)
    requires TableOk(els) && index < |els|
    ensures r.Success? ==> Rendered(r.value) && Unambiguous(r.value) && ParenthesesAllowed(r.value, parent)
    ensures r.Success? ==> (r.value.hasParentheses <==> IsGroup(els[index]) && KeepsParentheses(parent, r.value.formula))
    ensures r.Success? && !IsGroup(els[index]) ==> NodeTypeOf(els[index]) == Some(TypeOf(r.value.formula))
    decreases index
  {
    var e := els[index];
    assert ElementOk(els, index);
    match NodeTypeOf(e)
    case Some(PropositionNode) =>
      Success(Node(Proposition(e[0].c), false, [e[0].c]))
    case Some(ParenthesesNode) =>
      var center :- ConstructFormula(els, CenterIndex(els, index), parent);
      var hasParentheses := KeepsParentheses(parent, center.formula);
      Success(Node(center.formula, hasParentheses, Wrap(hasParentheses, Body(center.formula))))
    case Some(NegationNode) =>
      var right :- ConstructFormula(els, e[1].handle, Some(NegationNode));
      Success(Node(Negation(right), false, "-" + right.text))
    case Some(ImplicationNode) =>
      var left :- ConstructFormula(els, e[0].handle, Some(ImplicationNode));
      var right :- ConstructFormula(els, e[2].handle, Some(ImplicationNode));
      var text := left.text + ">" + right.text;
      if !ImplicationChildOk(left) || !ImplicationChildOk(right) then Failure(Ambiguous(text))
      else Success(Node(Implication(left, right), false, text))
    case Some(junction) =>
      var left :- ConstructFormula(els, e[0].handle, Some(junction));
      var right :- ConstructFormula(els, e[2].handle, Some(junction));
      var text := left.text + [e[1].c] + right.text;
      if !JunctionChildOk(left) || !JunctionChildOk(right) then Failure(Ambiguous(text))
      else if junction == ConjunctionNode then Success(Node(Conjunction(left, right), false, text))
      else Success(Node(Disjunction(left, right), false, text))
    case None => Failure(UndefinedElement)
  }

  /**
   * `constructFormula` exactly as written: the string of a parenthesised
   * element wraps the centre's string, which already carries parentheses
   * when the centre is itself a kept group, so a doubled layer survives.
   */
  function ConstructFormulaAsWritten(els: seq<Element>, index: nat, parent: Option<NodeType>): (r: Result<Node, ParseError>)
    requires TableOk(els) && index < |els|
    ensures r.Success? ==> (r.value.hasParentheses <==> IsGroup(els[index]) && KeepsParentheses(parent, r.value.formula))
    ensures r.Success? && r.value.hasParentheses ==>
      |r.value.text| >= 2 && r.value.text[0] == '(' && r.value.text[|r.value.text| - 1] == ')'
    ensures r.Success? && !IsGroup(els[index]) ==> r.value.text == Body(r.value.formula)
    decreases index
  {
    var e := els[index];
    assert ElementOk(els, index);
    match NodeTypeOf(e)
    case Some(PropositionNode) =>
      Success(Node(Proposition(e[0].c), false, [e[0].c]))
    case Some(ParenthesesNode) =>
      var center :- ConstructFormulaAsWritten(els, CenterIndex(els, index), parent);
      var hasParentheses := KeepsParentheses(parent, center.formula);
      Success(Node(center.formula, hasParentheses, Wrap(hasParentheses, center.text)))
    case Some(NegationNode) =>
      var right :- ConstructFormulaAsWritten(els, e[1].handle, Some(NegationNode));
      Success(Node(Negation(right), false, "-" + right.text))
    case Some(ImplicationNode) =>
      var left :- ConstructFormulaAsWritten(els, e[0].handle, Some(ImplicationNode));
      var right :- ConstructFormulaAsWritten(els, e[2].handle, Some(ImplicationNode));
      var text := left.text + ">" + right.text;
      if !ImplicationChildOk(left) || !ImplicationChildOk(right) then Failure(Ambiguous(text))
      else Success(Node(Implication(left, right), false, text))
    case Some(junction) =>
      var left :- ConstructFormulaAsWritten(els, e[0].handle, Some(junction));
      var right :- ConstructFormulaAsWritten(els, e[2].handle, Some(junction));
      var text := left.text + [e[1].c] + right.text;
      if !JunctionChildOk(left) || !JunctionChildOk(right) then Failure(Ambiguous(text))
      else if junction == ConjunctionNode then Success(Node(Conjunction(left, right), false, text))
      else Success(Node(Disjunction(left, right), false, text))
    case None => Failure(UndefinedElement)
  }

  /**
   * A group written inside another group, around a formula that keeps its
   * parentheses, renders as written with two layers: `P>((P>Q))` stays
   * `P>((P>Q))`, so its string is not the one its tree calls for.
   */
  lemma AsWrittenDoublesNestedGroup(els: seq<Element>, index: nat, parent: Option<NodeType>)
    requires TableOk(els) && index < |els| && IsGroup(els[index])
    requires IsGroup(els[CenterIndex(els, index)])
    requires !IsGroup(els[CenterIndex(els, CenterIndex(els, index))])
    requires ConstructFormulaAsWritten(els, index, parent).Success?
    requires ConstructFormulaAsWritten(els, index, parent).value.hasParentheses
    ensures var n := ConstructFormulaAsWritten(els, index, parent).value;
      n.text == "((" + Body(n.formula) + "))" && !Rendered(n)
  {
    var c := CenterIndex(els, index);
    var d := CenterIndex(els, c);
    assert NodeTypeOf(els[index]) == Some(ParenthesesNode);
    assert NodeTypeOf(els[c]) == Some(ParenthesesNode);
    var n := ConstructFormulaAsWritten(els, index, parent).value;
    var inner := ConstructFormulaAsWritten(els, d, parent).value;
    assert ConstructFormulaAsWritten(els, c, parent).value.text == "(" + Body(inner.formula) + ")";
    assert n.text == "(" + ("(" + Body(n.formula) + ")") + ")";
    assert |n.text| == |Body(n.formula)| + 4;
  }

  /** A `&` or `v` element with two handles. */
  predicate IsJunctionElement(e: Element) {
    IsBinary(e, '&') || IsBinary(e, 'v')
  }

  /**
   * Under a Conjunction or Disjunction, a built child is acceptable exactly
   * when its element is not itself a bare `&` or `v` element: a group keeps
   * its parentheses there whenever it wraps a junction.
   */
  lemma JunctionChildOkIff(els: seq<Element>, k: nat, t: NodeType)
    requires TableOk(els) && k < |els| && (t == ConjunctionNode || t == DisjunctionNode)
    requires ConstructFormula(els, k, Some(t)).Success?
    ensures JunctionChildOk(ConstructFormula(els, k, Some(t)).value) <==> !IsJunctionElement(els[k])
  {
    assert ElementOk(els, k);
  }

  /**
   * Under an Implication, a built child is acceptable exactly when its
   * element is not itself a bare `>` element.
   */
  lemma ImplicationChildOkIff(els: seq<Element>, k: nat)
    requires TableOk(els) && k < |els|
    requires ConstructFormula(els, k, Some(ImplicationNode)).Success?
    ensures ImplicationChildOk(ConstructFormula(els, k, Some(ImplicationNode)).value) <==> !IsBinary(els[k], '>')
  {
    assert ElementOk(els, k);
  }

  /**
   * The tree of a `&` or `v` element: when both operands build, it is the
   * Conjunction or Disjunction of their trees, unless an operand's element
   * is itself a bare `&` or `v` element; then the element is rejected as
   * ambiguous, naming the operands' strings joined by the connective.
   */
  lemma JunctionTree(els: seq<Element>, index: nat, parent: Option<NodeType>)
    requires TableOk(els) && index < |els| && IsJunctionElement(els[index])
    ensures els[index][0].handle < index && els[index][2].handle < index
    ensures var e := els[index];
      var t := if e[1] == Sym('&') then ConjunctionNode else DisjunctionNode;
      var l := ConstructFormula(els, e[0].handle, Some(t));
      var r := ConstructFormula(els, e[2].handle, Some(t));
      var n := ConstructFormula(els, index, parent);
      l.Success? && r.Success? ==>
        && (n.Success? <==> !IsJunctionElement(els[e[0].handle]) && !IsJunctionElement(els[e[2].handle]))
        && (n.Success? ==> n.value.formula == (if t == ConjunctionNode then Conjunction(l.value, r.value) else Disjunction(l.value, r.value)))
        && (n.Success? ==> n.value.text == l.value.text + [e[1].c] + r.value.text)
        && (n.Failure? ==> n.error == Ambiguous(l.value.text + [e[1].c] + r.value.text))
  {
    var e := els[index];
    assert ElementOk(els, index);
    var t := if e[1] == Sym('&') then ConjunctionNode else DisjunctionNode;
    assert NodeTypeOf(e) == Some(t);
    var l := ConstructFormula(els, e[0].handle, Some(t));
    var r := ConstructFormula(els, e[2].handle, Some(t));
    if l.Success? && r.Success? {
      var text := l.value.text + [e[1].c] + r.value.text;
      JunctionChildOkIff(els, e[0].handle, t);
      JunctionChildOkIff(els, e[2].handle, t);
      if !JunctionChildOk(l.value) || !JunctionChildOk(r.value) {
        var n := ConstructFormula(els, index, parent);
        assert n.Failure? && n.error == Ambiguous(text);
      } else if t == ConjunctionNode {
        assert ConstructFormula(els, index, parent) == Success(Node(Conjunction(l.value, r.value), false, text));
      } else {
        assert ConstructFormula(els, index, parent) == Success(Node(Disjunction(l.value, r.value), false, text));
      }
    }
  }

  /**
   * The tree of a `>` element: when both operands build, it is the
   * Implication of their trees, unless an operand's element is itself a
   * bare `>` element; then the element is rejected as ambiguous.
   */
  lemma ImplicationTree(els: seq<Element>, index: nat, parent: Option<NodeType>)
    requires TableOk(els) && index < |els| && IsBinary(els[index], '>')
    ensures els[index][0].handle < index && els[index][2].handle < index
    ensures var e := els[index];
      var l := ConstructFormula(els, e[0].handle, Some(ImplicationNode));
      var r := ConstructFormula(els, e[2].handle, Some(ImplicationNode));
      var n := ConstructFormula(els, index, parent);
      l.Success? && r.Success? ==>
        && (n.Success? <==> !IsBinary(els[e[0].handle], '>') && !IsBinary(els[e[2].handle], '>'))
        && (n.Success? ==> n.value.formula == Implication(l.value, r.value) && n.value.text == l.value.text + ">" + r.value.text)
        && (n.Failure? ==> n.error == Ambiguous(l.value.text + ">" + r.value.text))
  {
    var e := els[index];
    assert ElementOk(els, index);
    assert NodeTypeOf(e) == Some(ImplicationNode);
    var l := ConstructFormula(els, e[0].handle, Some(ImplicationNode));
    var r := ConstructFormula(els, e[2].handle, Some(ImplicationNode));
    if l.Success? && r.Success? {
      var text := l.value.text + ">" + r.value.text;
      ImplicationChildOkIff(els, e[0].handle);
      ImplicationChildOkIff(els, e[2].handle);
      if !ImplicationChildOk(l.value) || !ImplicationChildOk(r.value) {
        var n := ConstructFormula(els, index, parent);
        assert n.Failure? && n.error == Ambiguous(text);
      } else {
        assert ConstructFormula(els, index, parent) == Success(Node(Implication(l.value, r.value), false, text));
      }
    }
  }

  /**
   * The tree of an atom is its Proposition; of a negation element, the
   * Negation of its operand's tree; of a group, its centre's tree (with the
   * parentheses decided by the parent).
   */
  lemma UnaryTree(els: seq<Element>, index: nat, parent: Option<NodeType>)
    requires TableOk(els) && index < |els|
    ensures var e := els[index]; var n := ConstructFormula(els, index, parent);
      && (|e| == 1 && IsAtom(e[0]) ==> n == Success(Node(Proposition(e[0].c), false, [e[0].c])))
      && (|e| == 2 && e[0] == Sym('-') && e[1].Ref? ==>
            e[1].handle < index
            && var r := ConstructFormula(els, e[1].handle, Some(NegationNode));
            (n.Success? <==> r.Success?) && (n.Success? ==> n.value.formula == Negation(r.value)))
      && (IsGroup(e) ==>
            var c := ConstructFormula(els, CenterIndex(els, index), parent);
            (n.Success? <==> c.Success?) && (n.Success? ==> n.value.formula == c.value.formula))
  {
    assert ElementOk(els, index);
  }

  // ---------------------------------------------------------------------
  // Entry points
  // ---------------------------------------------------------------------

  lemma {:induction false} EmptyPasses(k: nat, els: seq<Element>)
    requires k <= 5 && TableOk(els) && NoDuplicates(els)
    ensures Passes(k, [], els) == Success(Flat([], els))
    decreases 5 - k
  {
    if k < 5 {
      EmptyPasses(k + 1, els);
    }
  }

  /**
   * `parseFormulaString`. The empty string flattens to the empty residue,
   * which `isNaN` accepts as handle 0; there is no element 0, and the
   * source fails reading it.
   */
  function ParseFormulaString(s: string): (r: Result<Node, ParseError>)
    ensures r.Success? ==> !r.value.hasParentheses
    ensures r.Success? ==> Rendered(r.value) && Unambiguous(r.value) && ParenthesesAllowed(r.value, None)
    ensures s == "" ==> r == Failure(UndefinedElement)
  {
    EmptyPasses(0, []);
    match Flatten(Chars(s), [])
    case Failure(e) => Failure(e)
    case Success(a) =>
      if a.root < |a.elements| then ConstructFormula(a.elements, a.root, None) else Failure(UndefinedElement)
  }

  /** `parseFormulaString` with the tree built as written (see ConstructFormulaAsWritten). */
  function ParseFormulaStringAsWritten(s: string): (r: Result<Node, ParseError>)
    ensures r.Success? ==> !r.value.hasParentheses
    ensures s == "" ==> r == Failure(UndefinedElement)
  {
    EmptyPasses(0, []);
    match Flatten(Chars(s), [])
    case Failure(e) => Failure(e)
    case Success(a) =>
      if a.root < |a.elements| then ConstructFormulaAsWritten(a.elements, a.root, None) else Failure(UndefinedElement)
  }

  lemma {:induction false} TokensTextChars(s: string)
    ensures TokensText(Chars(s)) == s
  {
    if s != [] {
      assert Chars(s)[1..] == Chars(s[1..]);
      TokensTextChars(s[1..]);
    }
  }

  /**
   * A parse succeeds only if the five rules leave a single handle; when
   * they leave anything else but nothing, it fails naming the input.
   */
  lemma ParseNeedsSingleHandle(s: string)
    ensures ParseFormulaString(s).Success? ==>
      var p := Passes(0, Chars(s), []);
      p.Success? && |p.value.tokens| == 1 && p.value.tokens[0].Ref?
    ensures
      var p := Passes(0, Chars(s), []);
      p.Success? && p.value.tokens != [] && !(|p.value.tokens| == 1 && p.value.tokens[0].Ref?) ==>
      ParseFormulaString(s) == Failure(NotWellFormed(s))
  {
    TokensTextChars(s);
  }

  /** An assertion: the parsed assumptions and the parsed conclusion. */
  datatype Assertion = Assertion(assumptionList: seq<Node>, conclusion: Node)

  /** `strings.map(parseFormulaString)`: parses in order, the first error propagates. */
  function ParseAll(ss: seq<string>): (r: Result<seq<Node>, ParseError>)
    ensures r.Success? ==> |r.value| == |ss|
  {
    if ss == [] then Success([])
    else
      var first := ParseFormulaString(ss[0]);
      if first.Failure? then Failure(first.error)
      else
        var rest := ParseAll(ss[1..]);
        if rest.Failure? then Failure(rest.error) else Success([first.value] + rest.value)
  }

  /** Every formula parses exactly when the list does, and the list holds their trees in order. */
  lemma {:induction false} ParseAllSucceeds(ss: seq<string>)
    ensures ParseAll(ss).Success? <==> forall i :: 0 <= i < |ss| ==> ParseFormulaString(ss[i]).Success?
    ensures ParseAll(ss).Success? ==> forall i :: 0 <= i < |ss| ==> ParseFormulaString(ss[i]) == Success(ParseAll(ss).value[i])
  {
    if ss != [] {
      ParseAllSucceeds(ss[1..]);
      assert forall j :: 0 <= j < |ss| - 1 ==> ss[1..][j] == ss[j + 1];
    }
  }

  /** A failure is the error of the first formula that does not parse. */
  lemma {:induction false} ParseAllFails(ss: seq<string>) returns (i: nat)
    requires ParseAll(ss).Failure?
    ensures i < |ss| && ParseFormulaString(ss[i]) == Failure(ParseAll(ss).error)
    ensures forall j :: 0 <= j < i ==> ParseFormulaString(ss[j]).Success?
  {
    if ParseFormulaString(ss[0]).Failure? {
      i := 0;
    } else {
      var k := ParseAllFails(ss[1..]);
      i := k + 1;
      assert forall j :: 1 <= j <= i ==> ss[1..][j - 1] == ss[j];
    }
  }

  /** `constructAssertion`: every assumption in order, then the conclusion; any parse error propagates. */
  function ConstructAssertion(assumptions: seq<string>, conclusion: string): (r: Result<Assertion, ParseError>)
    ensures r.Success? <==> (forall i :: 0 <= i < |assumptions| ==> ParseFormulaString(assumptions[i]).Success?)
                            && ParseFormulaString(conclusion).Success?
    ensures r.Success? ==>
      (|r.value.assumptionList| == |assumptions|
       && (forall i :: 0 <= i < |assumptions| ==> ParseFormulaString(assumptions[i]) == Success(r.value.assumptionList[i]))
       && ParseFormulaString(conclusion) == Success(r.value.conclusion))
    ensures ParseAll(assumptions).Failure? ==> r == Failure(ParseAll(assumptions).error)
    ensures ParseAll(assumptions).Success? && ParseFormulaString(conclusion).Failure? ==>
      r == Failure(ParseFormulaString(conclusion).error)
  {
    ParseAllSucceeds(assumptions);
    var assumptionList :- ParseAll(assumptions);
    var c :- ParseFormulaString(conclusion);
    Success(Assertion(assumptionList, c))
  }
}
