/**
 * The parser run on whole input strings. Each example is flattened one
 * substitution at a time, in the order the loops of analyzeFormulaString
 * (src/models/formulaParser.js:7-44) take them, and the element list that
 * results is then built into a tree. In the comments a working string is
 * written as the source writes it: a digit is the handle it names.
 */
module ParserRuns {
  import opened Wrappers
  import opened FormulaParser
  import opened ParserExamples
  import opened DerivationRules

  /** What every stage of flattening keeps: a valid, duplicate-free list, and handles into it. */
  predicate Admissible(ts: seq<Token>, els: seq<Element>) {
    TableOk(els) && NoDuplicates(els) && RefsBelow(ts, |els|)
  }

  /** The element list every parse starts from. */
  const NoElements: seq<Element> := []

  /** The leftmost match at or after `from` is at i when nothing matches before it. */
  lemma {:induction false} FirstMatchAt(tier: Tier, ts: seq<Token>, from: nat, i: nat)
    requires from <= i < |ts| && MatchLength(tier, ts, i) > 0
    requires forall j :: from <= j < i ==> MatchLength(tier, ts, j) == 0
    ensures FirstMatch(tier, ts, from) == Some(i)
    decreases i - from
  {
    if from < i {
      FirstMatchAt(tier, ts, from + 1, i);
    }
  }

  /** With nothing left to match, a sweep stops where it is. */
  lemma SweepStops(tier: Tier, ts: seq<Token>, els: seq<Element>)
    requires Admissible(ts, els)
    requires FirstMatch(tier, ts, 0) == None
    ensures Sweep(tier, ts, els) == Success(Flat(ts, els))
  {
  }

  /** One step of a sweep other than the groups': the leftmost match is interned and replaced by its handle. */
  lemma SweepStep(tier: Tier, ts: seq<Token>, els: seq<Element>, i: nat, len: nat, h: nat, ts': seq<Token>, els': seq<Element>)
    requires Admissible(ts, els)
    requires tier != Groups && FirstMatch(tier, ts, 0) == Some(i) && len == MatchLength(tier, ts, i)
    requires Intern(els, ts[i..i + len]).0 == els' && Intern(els, ts[i..i + len]).1 == h
    requires ts' == ts[..i] + [Ref(h)] + ts[i + len..]
    ensures Admissible(ts', els')
    ensures Sweep(tier, ts, els) == Sweep(tier, ts', els')
  {
    assert Substitute(tier, ts, els, i, len) == Success(Flat(ts', els'));
  }

  /**
   * The substitution of a group: the group's content is flattened first,
   * and `(` + the text of its root element + `)` is interned.
   */
  lemma GroupSubstitution(ts: seq<Token>, els: seq<Element>, i: nat, len: nat, content: seq<Token>, inner: seq<Element>, root: nat, body: Element, h: nat, ts': seq<Token>, els': seq<Element>)
    requires Admissible(ts, els)
    requires i < |ts| && len == MatchLength(Groups, ts, i) && len > 0
    requires content == ts[i + 1..i + len - 1]
    requires Flatten(content, els) == Success(Analysis(inner, root))
    requires root < |inner| && inner[root] == body
    requires Intern(inner, [Sym('(')] + body + [Sym(')')]).0 == els'
    requires Intern(inner, [Sym('(')] + body + [Sym(')')]).1 == h
    requires ts' == ts[..i] + [Ref(h)] + ts[i + len..]
    ensures Substitute(Groups, ts, els, i, len) == Success(Flat(ts', els'))
  {
  }

  /** A sweep that substitutes its leftmost match goes on from the result. */
  lemma SweepBy(tier: Tier, ts: seq<Token>, els: seq<Element>, i: nat, len: nat, ts': seq<Token>, els': seq<Element>)
    requires Admissible(ts, els)
    requires FirstMatch(tier, ts, 0) == Some(i) && len == MatchLength(tier, ts, i)
    requires Substitute(tier, ts, els, i, len) == Success(Flat(ts', els'))
    ensures Admissible(ts', els')
    ensures Sweep(tier, ts, els) == Sweep(tier, ts', els')
  {
  }

  /** The five rules, each swept to the end, leaving a single handle: that handle is the root. */
  lemma FlattenOfRules(ts: seq<Token>, els: seq<Element>, f1: Flat, f2: Flat, f3: Flat, f4: Flat, f5: Flat, h: nat)
    requires Admissible(ts, els)
    requires Sweep(Atoms, ts, els) == Success(f1)
    requires Sweep(Groups, f1.tokens, f1.elements) == Success(f2)
    requires Sweep(Negations, f2.tokens, f2.elements) == Success(f3)
    requires Sweep(Junctions, f3.tokens, f3.elements) == Success(f4)
    requires Sweep(Implications, f4.tokens, f4.elements) == Success(f5)
    requires f5.tokens == [Ref(h)]
    ensures Flatten(ts, els) == Success(Analysis(f5.elements, h))
  {
    assert Passes(4, f4.tokens, f4.elements) == Success(f5);
    assert Passes(3, f3.tokens, f3.elements) == Success(f5);
    assert Passes(2, f2.tokens, f2.elements) == Success(f5);
    assert Passes(1, f1.tokens, f1.elements) == Success(f5);
  }

  // ---------------------------------------------------------------------
  // `P&Q&R`
  // ---------------------------------------------------------------------

  /** `P&Q&R`, propositions: the leftmost match is `P`, at 0; it is new and becomes element 0. */
  lemma ChainedConjunctionStep1Found()
    ensures FirstMatch(Atoms, [Sym('P'), Sym('&'), Sym('Q'), Sym('&'), Sym('R')], 0) == Some(0)
    ensures MatchLength(Atoms, [Sym('P'), Sym('&'), Sym('Q'), Sym('&'), Sym('R')], 0) == 1
    ensures [Ref(0), Sym('&'), Sym('Q'), Sym('&'), Sym('R')] == [Sym('P'), Sym('&'), Sym('Q'), Sym('&'), Sym('R')][..0] + [Ref(0)] + [Sym('P'), Sym('&'), Sym('Q'), Sym('&'), Sym('R')][1..]
    ensures [Sym('P'), Sym('&'), Sym('Q'), Sym('&'), Sym('R')][0..1] == [Sym('P')]
    ensures Intern(NoElements, [Sym('P')]).0 == [[Sym('P')]]
    ensures Intern(NoElements, [Sym('P')]).1 == 0
  {
  }

  /** `P&Q&R`, propositions: `P` is new and becomes element 0. */
  lemma ChainedConjunctionStep1()
    requires Admissible([Sym('P'), Sym('&'), Sym('Q'), Sym('&'), Sym('R')], NoElements)
    ensures Admissible([Ref(0), Sym('&'), Sym('Q'), Sym('&'), Sym('R')], [[Sym('P')]])
    ensures Sweep(Atoms, [Sym('P'), Sym('&'), Sym('Q'), Sym('&'), Sym('R')], NoElements) == Sweep(Atoms, [Ref(0), Sym('&'), Sym('Q'), Sym('&'), Sym('R')], [[Sym('P')]])
  {
    var ts, els, ts', els' := [Sym('P'), Sym('&'), Sym('Q'), Sym('&'), Sym('R')], NoElements, [Ref(0), Sym('&'), Sym('Q'), Sym('&'), Sym('R')], [[Sym('P')]];
    ChainedConjunctionStep1Found();
    SweepStep(Atoms, ts, els, 0, 1, 0, ts', els');
  }

  /** `P&Q&R`, propositions: the leftmost match is `Q`, at 2; it is new and becomes element 1. */
  lemma ChainedConjunctionStep2Found()
    ensures FirstMatch(Atoms, [Ref(0), Sym('&'), Sym('Q'), Sym('&'), Sym('R')], 0) == Some(2)
    ensures MatchLength(Atoms, [Ref(0), Sym('&'), Sym('Q'), Sym('&'), Sym('R')], 2) == 1
    ensures [Ref(0), Sym('&'), Ref(1), Sym('&'), Sym('R')] == [Ref(0), Sym('&'), Sym('Q'), Sym('&'), Sym('R')][..2] + [Ref(1)] + [Ref(0), Sym('&'), Sym('Q'), Sym('&'), Sym('R')][3..]
    ensures [Ref(0), Sym('&'), Sym('Q'), Sym('&'), Sym('R')][2..3] == [Sym('Q')]
    ensures Intern([[Sym('P')]], [Sym('Q')]).0 == [[Sym('P')], [Sym('Q')]]
    ensures Intern([[Sym('P')]], [Sym('Q')]).1 == 1
  {
    var els, e := [[Sym('P')]], [Sym('Q')];
    assert els[0][0] != e[0];
  }

  /** `P&Q&R`, propositions: `Q` is new and becomes element 1. */
  lemma ChainedConjunctionStep2()
    requires Admissible([Ref(0), Sym('&'), Sym('Q'), Sym('&'), Sym('R')], [[Sym('P')]])
    ensures Admissible([Ref(0), Sym('&'), Ref(1), Sym('&'), Sym('R')], [[Sym('P')], [Sym('Q')]])
    ensures Sweep(Atoms, [Ref(0), Sym('&'), Sym('Q'), Sym('&'), Sym('R')], [[Sym('P')]]) == Sweep(Atoms, [Ref(0), Sym('&'), Ref(1), Sym('&'), Sym('R')], [[Sym('P')], [Sym('Q')]])
  {
    var ts, els, ts', els' := [Ref(0), Sym('&'), Sym('Q'), Sym('&'), Sym('R')], [[Sym('P')]], [Ref(0), Sym('&'), Ref(1), Sym('&'), Sym('R')], [[Sym('P')], [Sym('Q')]];
    ChainedConjunctionStep2Found();
    SweepStep(Atoms, ts, els, 2, 1, 1, ts', els');
  }

  /** `P&Q&R`, propositions: the leftmost match is `R`, at 4; it is new and becomes element 2. */
  lemma ChainedConjunctionStep3Found()
    ensures FirstMatch(Atoms, [Ref(0), Sym('&'), Ref(1), Sym('&'), Sym('R')], 0) == Some(4)
    ensures MatchLength(Atoms, [Ref(0), Sym('&'), Ref(1), Sym('&'), Sym('R')], 4) == 1
    ensures [Ref(0), Sym('&'), Ref(1), Sym('&'), Ref(2)] == [Ref(0), Sym('&'), Ref(1), Sym('&'), Sym('R')][..4] + [Ref(2)] + [Ref(0), Sym('&'), Ref(1), Sym('&'), Sym('R')][5..]
    ensures [Ref(0), Sym('&'), Ref(1), Sym('&'), Sym('R')][4..5] == [Sym('R')]
    ensures Intern([[Sym('P')], [Sym('Q')]], [Sym('R')]).0 == [[Sym('P')], [Sym('Q')], [Sym('R')]]
    ensures Intern([[Sym('P')], [Sym('Q')]], [Sym('R')]).1 == 2
  {
    var els, e := [[Sym('P')], [Sym('Q')]], [Sym('R')];
    assert els[0][0] != e[0];
    assert els[1][0] != e[0];
  }

  /** `P&Q&R`, propositions: `R` is new and becomes element 2. */
  lemma ChainedConjunctionStep3()
    requires Admissible([Ref(0), Sym('&'), Ref(1), Sym('&'), Sym('R')], [[Sym('P')], [Sym('Q')]])
    ensures Admissible([Ref(0), Sym('&'), Ref(1), Sym('&'), Ref(2)], [[Sym('P')], [Sym('Q')], [Sym('R')]])
    ensures Sweep(Atoms, [Ref(0), Sym('&'), Ref(1), Sym('&'), Sym('R')], [[Sym('P')], [Sym('Q')]]) == Sweep(Atoms, [Ref(0), Sym('&'), Ref(1), Sym('&'), Ref(2)], [[Sym('P')], [Sym('Q')], [Sym('R')]])
  {
    var ts, els, ts', els' := [Ref(0), Sym('&'), Ref(1), Sym('&'), Sym('R')], [[Sym('P')], [Sym('Q')]], [Ref(0), Sym('&'), Ref(1), Sym('&'), Ref(2)], [[Sym('P')], [Sym('Q')], [Sym('R')]];
    ChainedConjunctionStep3Found();
    SweepStep(Atoms, ts, els, 4, 1, 2, ts', els');
  }

  /** `P&Q&R`, conjunctions and disjunctions: the leftmost match is `0&1`, at 0; it is new and becomes element 3. */
  lemma ChainedConjunctionStep4Found()
    ensures FirstMatch(Junctions, [Ref(0), Sym('&'), Ref(1), Sym('&'), Ref(2)], 0) == Some(0)
    ensures MatchLength(Junctions, [Ref(0), Sym('&'), Ref(1), Sym('&'), Ref(2)], 0) == 3
    ensures [Ref(3), Sym('&'), Ref(2)] == [Ref(0), Sym('&'), Ref(1), Sym('&'), Ref(2)][..0] + [Ref(3)] + [Ref(0), Sym('&'), Ref(1), Sym('&'), Ref(2)][3..]
    ensures [Ref(0), Sym('&'), Ref(1), Sym('&'), Ref(2)][0..3] == [Ref(0), Sym('&'), Ref(1)]
    ensures Intern([[Sym('P')], [Sym('Q')], [Sym('R')]], [Ref(0), Sym('&'), Ref(1)]).0 == [[Sym('P')], [Sym('Q')], [Sym('R')], [Ref(0), Sym('&'), Ref(1)]]
    ensures Intern([[Sym('P')], [Sym('Q')], [Sym('R')]], [Ref(0), Sym('&'), Ref(1)]).1 == 3
  {
    var els, e := [[Sym('P')], [Sym('Q')], [Sym('R')]], [Ref(0), Sym('&'), Ref(1)];
    assert |els[0]| != |e|;
    assert |els[1]| != |e|;
    assert |els[2]| != |e|;
  }

  /** `P&Q&R`, conjunctions and disjunctions: `0&1` is new and becomes element 3. */
  lemma ChainedConjunctionStep4()
    requires Admissible([Ref(0), Sym('&'), Ref(1), Sym('&'), Ref(2)], [[Sym('P')], [Sym('Q')], [Sym('R')]])
    ensures Admissible([Ref(3), Sym('&'), Ref(2)], [[Sym('P')], [Sym('Q')], [Sym('R')], [Ref(0), Sym('&'), Ref(1)]])
    ensures Sweep(Junctions, [Ref(0), Sym('&'), Ref(1), Sym('&'), Ref(2)], [[Sym('P')], [Sym('Q')], [Sym('R')]]) == Sweep(Junctions, [Ref(3), Sym('&'), Ref(2)], [[Sym('P')], [Sym('Q')], [Sym('R')], [Ref(0), Sym('&'), Ref(1)]])
  {
    var ts, els, ts', els' := [Ref(0), Sym('&'), Ref(1), Sym('&'), Ref(2)], [[Sym('P')], [Sym('Q')], [Sym('R')]], [Ref(3), Sym('&'), Ref(2)], [[Sym('P')], [Sym('Q')], [Sym('R')], [Ref(0), Sym('&'), Ref(1)]];
    ChainedConjunctionStep4Found();
    SweepStep(Junctions, ts, els, 0, 3, 3, ts', els');
  }

  /** `P&Q&R`, conjunctions and disjunctions: the leftmost match is `3&2`, at 0; it is new and becomes element 4. */
  lemma ChainedConjunctionStep5Found()
    ensures FirstMatch(Junctions, [Ref(3), Sym('&'), Ref(2)], 0) == Some(0)
    ensures MatchLength(Junctions, [Ref(3), Sym('&'), Ref(2)], 0) == 3
    ensures [Ref(4)] == [Ref(3), Sym('&'), Ref(2)][..0] + [Ref(4)] + [Ref(3), Sym('&'), Ref(2)][3..]
    ensures [Ref(3), Sym('&'), Ref(2)][0..3] == [Ref(3), Sym('&'), Ref(2)]
    ensures Intern([[Sym('P')], [Sym('Q')], [Sym('R')], [Ref(0), Sym('&'), Ref(1)]], [Ref(3), Sym('&'), Ref(2)]).0 == [[Sym('P')], [Sym('Q')], [Sym('R')], [Ref(0), Sym('&'), Ref(1)], [Ref(3), Sym('&'), Ref(2)]]
    ensures Intern([[Sym('P')], [Sym('Q')], [Sym('R')], [Ref(0), Sym('&'), Ref(1)]], [Ref(3), Sym('&'), Ref(2)]).1 == 4
  {
    var els, e := [[Sym('P')], [Sym('Q')], [Sym('R')], [Ref(0), Sym('&'), Ref(1)]], [Ref(3), Sym('&'), Ref(2)];
    assert |els[0]| != |e|;
    assert |els[1]| != |e|;
    assert |els[2]| != |e|;
    assert els[3][0] != e[0];
  }

  /** `P&Q&R`, conjunctions and disjunctions: `3&2` is new and becomes element 4. */
  lemma ChainedConjunctionStep5()
    requires Admissible([Ref(3), Sym('&'), Ref(2)], [[Sym('P')], [Sym('Q')], [Sym('R')], [Ref(0), Sym('&'), Ref(1)]])
    ensures Admissible([Ref(4)], [[Sym('P')], [Sym('Q')], [Sym('R')], [Ref(0), Sym('&'), Ref(1)], [Ref(3), Sym('&'), Ref(2)]])
    ensures Sweep(Junctions, [Ref(3), Sym('&'), Ref(2)], [[Sym('P')], [Sym('Q')], [Sym('R')], [Ref(0), Sym('&'), Ref(1)]]) == Sweep(Junctions, [Ref(4)], [[Sym('P')], [Sym('Q')], [Sym('R')], [Ref(0), Sym('&'), Ref(1)], [Ref(3), Sym('&'), Ref(2)]])
  {
    var ts, els, ts', els' := [Ref(3), Sym('&'), Ref(2)], [[Sym('P')], [Sym('Q')], [Sym('R')], [Ref(0), Sym('&'), Ref(1)]], [Ref(4)], [[Sym('P')], [Sym('Q')], [Sym('R')], [Ref(0), Sym('&'), Ref(1)], [Ref(3), Sym('&'), Ref(2)]];
    ChainedConjunctionStep5Found();
    SweepStep(Junctions, ts, els, 0, 3, 4, ts', els');
  }

  /** `P&Q&R`, rule 0 (propositions): 3 substitutions. */
  lemma ChainedConjunctionAtoms()
    requires Admissible([Sym('P'), Sym('&'), Sym('Q'), Sym('&'), Sym('R')], NoElements)
    ensures Admissible([Ref(0), Sym('&'), Ref(1), Sym('&'), Ref(2)], [[Sym('P')], [Sym('Q')], [Sym('R')]])
    ensures Sweep(Atoms, [Sym('P'), Sym('&'), Sym('Q'), Sym('&'), Sym('R')], NoElements) == Success(Flat([Ref(0), Sym('&'), Ref(1), Sym('&'), Ref(2)], [[Sym('P')], [Sym('Q')], [Sym('R')]]))
  {
    var ts, els := [Ref(0), Sym('&'), Ref(1), Sym('&'), Ref(2)], [[Sym('P')], [Sym('Q')], [Sym('R')]];
    ChainedConjunctionStep1();
    ChainedConjunctionStep2();
    ChainedConjunctionStep3();
    ChainedConjunctionDone();
    SweepStops(Atoms, ts, els);
  }

  /** `P&Q&R`, rule 1 (groups): nothing matches. */
  lemma ChainedConjunctionGroups()
    requires Admissible([Ref(0), Sym('&'), Ref(1), Sym('&'), Ref(2)], [[Sym('P')], [Sym('Q')], [Sym('R')]])
    ensures Admissible([Ref(0), Sym('&'), Ref(1), Sym('&'), Ref(2)], [[Sym('P')], [Sym('Q')], [Sym('R')]])
    ensures Sweep(Groups, [Ref(0), Sym('&'), Ref(1), Sym('&'), Ref(2)], [[Sym('P')], [Sym('Q')], [Sym('R')]]) == Success(Flat([Ref(0), Sym('&'), Ref(1), Sym('&'), Ref(2)], [[Sym('P')], [Sym('Q')], [Sym('R')]]))
  {
    var ts, els := [Ref(0), Sym('&'), Ref(1), Sym('&'), Ref(2)], [[Sym('P')], [Sym('Q')], [Sym('R')]];
    ChainedConjunctionDone();
    SweepStops(Groups, ts, els);
  }

  /** `P&Q&R`, rule 2 (negations): nothing matches. */
  lemma ChainedConjunctionNegations()
    requires Admissible([Ref(0), Sym('&'), Ref(1), Sym('&'), Ref(2)], [[Sym('P')], [Sym('Q')], [Sym('R')]])
    ensures Admissible([Ref(0), Sym('&'), Ref(1), Sym('&'), Ref(2)], [[Sym('P')], [Sym('Q')], [Sym('R')]])
    ensures Sweep(Negations, [Ref(0), Sym('&'), Ref(1), Sym('&'), Ref(2)], [[Sym('P')], [Sym('Q')], [Sym('R')]]) == Success(Flat([Ref(0), Sym('&'), Ref(1), Sym('&'), Ref(2)], [[Sym('P')], [Sym('Q')], [Sym('R')]]))
  {
    var ts, els := [Ref(0), Sym('&'), Ref(1), Sym('&'), Ref(2)], [[Sym('P')], [Sym('Q')], [Sym('R')]];
    ChainedConjunctionDone();
    SweepStops(Negations, ts, els);
  }

  /** `P&Q&R`, rule 3 (conjunctions and disjunctions): 2 substitutions. */
  lemma ChainedConjunctionJunctions()
    requires Admissible([Ref(0), Sym('&'), Ref(1), Sym('&'), Ref(2)], [[Sym('P')], [Sym('Q')], [Sym('R')]])
    ensures Admissible([Ref(4)], [[Sym('P')], [Sym('Q')], [Sym('R')], [Ref(0), Sym('&'), Ref(1)], [Ref(3), Sym('&'), Ref(2)]])
    ensures Sweep(Junctions, [Ref(0), Sym('&'), Ref(1), Sym('&'), Ref(2)], [[Sym('P')], [Sym('Q')], [Sym('R')]]) == Success(Flat([Ref(4)], [[Sym('P')], [Sym('Q')], [Sym('R')], [Ref(0), Sym('&'), Ref(1)], [Ref(3), Sym('&'), Ref(2)]]))
  {
    var ts, els := [Ref(4)], [[Sym('P')], [Sym('Q')], [Sym('R')], [Ref(0), Sym('&'), Ref(1)], [Ref(3), Sym('&'), Ref(2)]];
    ChainedConjunctionStep4();
    ChainedConjunctionStep5();
    ChainedConjunctionDone();
    SweepStops(Junctions, ts, els);
  }

  /** `P&Q&R`, rule 4 (implications): nothing matches. */
  lemma ChainedConjunctionImplications()
    requires Admissible([Ref(4)], [[Sym('P')], [Sym('Q')], [Sym('R')], [Ref(0), Sym('&'), Ref(1)], [Ref(3), Sym('&'), Ref(2)]])
    ensures Admissible([Ref(4)], [[Sym('P')], [Sym('Q')], [Sym('R')], [Ref(0), Sym('&'), Ref(1)], [Ref(3), Sym('&'), Ref(2)]])
    ensures Sweep(Implications, [Ref(4)], [[Sym('P')], [Sym('Q')], [Sym('R')], [Ref(0), Sym('&'), Ref(1)], [Ref(3), Sym('&'), Ref(2)]]) == Success(Flat([Ref(4)], [[Sym('P')], [Sym('Q')], [Sym('R')], [Ref(0), Sym('&'), Ref(1)], [Ref(3), Sym('&'), Ref(2)]]))
  {
    var ts, els := [Ref(4)], [[Sym('P')], [Sym('Q')], [Sym('R')], [Ref(0), Sym('&'), Ref(1)], [Ref(3), Sym('&'), Ref(2)]];
    ChainedConjunctionDone();
    SweepStops(Implications, ts, els);
  }

  /** `P&Q&R`: once each rule has been swept, nothing is left for it to match. */
  lemma ChainedConjunctionDone()
    ensures FirstMatch(Atoms, [Ref(0), Sym('&'), Ref(1), Sym('&'), Ref(2)], 0) == None
    ensures FirstMatch(Groups, [Ref(0), Sym('&'), Ref(1), Sym('&'), Ref(2)], 0) == None
    ensures FirstMatch(Negations, [Ref(0), Sym('&'), Ref(1), Sym('&'), Ref(2)], 0) == None
    ensures FirstMatch(Junctions, [Ref(4)], 0) == None
    ensures FirstMatch(Implications, [Ref(4)], 0) == None
  {
  }

  /** `P&Q&R` flattens to element 4. */
  lemma ChainedConjunctionFlattens()
    ensures Flatten([Sym('P'), Sym('&'), Sym('Q'), Sym('&'), Sym('R')], NoElements) == Success(Analysis([[Sym('P')], [Sym('Q')], [Sym('R')], [Ref(0), Sym('&'), Ref(1)], [Ref(3), Sym('&'), Ref(2)]], 4))
  {
    var ts, els := [Sym('P'), Sym('&'), Sym('Q'), Sym('&'), Sym('R')], NoElements;
    var f1 := Flat([Ref(0), Sym('&'), Ref(1), Sym('&'), Ref(2)], [[Sym('P')], [Sym('Q')], [Sym('R')]]);
    var f2 := Flat([Ref(0), Sym('&'), Ref(1), Sym('&'), Ref(2)], [[Sym('P')], [Sym('Q')], [Sym('R')]]);
    var f3 := Flat([Ref(0), Sym('&'), Ref(1), Sym('&'), Ref(2)], [[Sym('P')], [Sym('Q')], [Sym('R')]]);
    var f4 := Flat([Ref(4)], [[Sym('P')], [Sym('Q')], [Sym('R')], [Ref(0), Sym('&'), Ref(1)], [Ref(3), Sym('&'), Ref(2)]]);
    var f5 := Flat([Ref(4)], [[Sym('P')], [Sym('Q')], [Sym('R')], [Ref(0), Sym('&'), Ref(1)], [Ref(3), Sym('&'), Ref(2)]]);
    ChainedConjunctionAtoms();
    ChainedConjunctionGroups();
    ChainedConjunctionNegations();
    ChainedConjunctionJunctions();
    ChainedConjunctionImplications();
    FlattenOfRules(ts, els, f1, f2, f3, f4, f5, 4);
  }


  // ---------------------------------------------------------------------
  // `P>S&Q>R`
  // ---------------------------------------------------------------------

  /** `P>S&Q>R`, propositions: the leftmost match is `P`, at 0; it is new and becomes element 0. */
  lemma ChainedImplicationStep1Found()
    ensures FirstMatch(Atoms, [Sym('P'), Sym('>'), Sym('S'), Sym('&'), Sym('Q'), Sym('>'), Sym('R')], 0) == Some(0)
    ensures MatchLength(Atoms, [Sym('P'), Sym('>'), Sym('S'), Sym('&'), Sym('Q'), Sym('>'), Sym('R')], 0) == 1
    ensures [Ref(0), Sym('>'), Sym('S'), Sym('&'), Sym('Q'), Sym('>'), Sym('R')] == [Sym('P'), Sym('>'), Sym('S'), Sym('&'), Sym('Q'), Sym('>'), Sym('R')][..0] + [Ref(0)] + [Sym('P'), Sym('>'), Sym('S'), Sym('&'), Sym('Q'), Sym('>'), Sym('R')][1..]
    ensures [Sym('P'), Sym('>'), Sym('S'), Sym('&'), Sym('Q'), Sym('>'), Sym('R')][0..1] == [Sym('P')]
    ensures Intern(NoElements, [Sym('P')]).0 == [[Sym('P')]]
    ensures Intern(NoElements, [Sym('P')]).1 == 0
  {
  }

  /** `P>S&Q>R`, propositions: `P` is new and becomes element 0. */
  lemma ChainedImplicationStep1()
    requires Admissible([Sym('P'), Sym('>'), Sym('S'), Sym('&'), Sym('Q'), Sym('>'), Sym('R')], NoElements)
    ensures Admissible([Ref(0), Sym('>'), Sym('S'), Sym('&'), Sym('Q'), Sym('>'), Sym('R')], [[Sym('P')]])
    ensures Sweep(Atoms, [Sym('P'), Sym('>'), Sym('S'), Sym('&'), Sym('Q'), Sym('>'), Sym('R')], NoElements) == Sweep(Atoms, [Ref(0), Sym('>'), Sym('S'), Sym('&'), Sym('Q'), Sym('>'), Sym('R')], [[Sym('P')]])
  {
    var ts, els, ts', els' := [Sym('P'), Sym('>'), Sym('S'), Sym('&'), Sym('Q'), Sym('>'), Sym('R')], NoElements, [Ref(0), Sym('>'), Sym('S'), Sym('&'), Sym('Q'), Sym('>'), Sym('R')], [[Sym('P')]];
    ChainedImplicationStep1Found();
    SweepStep(Atoms, ts, els, 0, 1, 0, ts', els');
  }

  /** `P>S&Q>R`, propositions: the leftmost match is `S`, at 2; it is new and becomes element 1. */
  lemma ChainedImplicationStep2Found()
    ensures FirstMatch(Atoms, [Ref(0), Sym('>'), Sym('S'), Sym('&'), Sym('Q'), Sym('>'), Sym('R')], 0) == Some(2)
    ensures MatchLength(Atoms, [Ref(0), Sym('>'), Sym('S'), Sym('&'), Sym('Q'), Sym('>'), Sym('R')], 2) == 1
    ensures [Ref(0), Sym('>'), Ref(1), Sym('&'), Sym('Q'), Sym('>'), Sym('R')] == [Ref(0), Sym('>'), Sym('S'), Sym('&'), Sym('Q'), Sym('>'), Sym('R')][..2] + [Ref(1)] + [Ref(0), Sym('>'), Sym('S'), Sym('&'), Sym('Q'), Sym('>'), Sym('R')][3..]
    ensures [Ref(0), Sym('>'), Sym('S'), Sym('&'), Sym('Q'), Sym('>'), Sym('R')][2..3] == [Sym('S')]
    ensures Intern([[Sym('P')]], [Sym('S')]).0 == [[Sym('P')], [Sym('S')]]
    ensures Intern([[Sym('P')]], [Sym('S')]).1 == 1
  {
    var els, e := [[Sym('P')]], [Sym('S')];
    assert els[0][0] != e[0];
  }

  /** `P>S&Q>R`, propositions: `S` is new and becomes element 1. */
  lemma ChainedImplicationStep2()
    requires Admissible([Ref(0), Sym('>'), Sym('S'), Sym('&'), Sym('Q'), Sym('>'), Sym('R')], [[Sym('P')]])
    ensures Admissible([Ref(0), Sym('>'), Ref(1), Sym('&'), Sym('Q'), Sym('>'), Sym('R')], [[Sym('P')], [Sym('S')]])
    ensures Sweep(Atoms, [Ref(0), Sym('>'), Sym('S'), Sym('&'), Sym('Q'), Sym('>'), Sym('R')], [[Sym('P')]]) == Sweep(Atoms, [Ref(0), Sym('>'), Ref(1), Sym('&'), Sym('Q'), Sym('>'), Sym('R')], [[Sym('P')], [Sym('S')]])
  {
    var ts, els, ts', els' := [Ref(0), Sym('>'), Sym('S'), Sym('&'), Sym('Q'), Sym('>'), Sym('R')], [[Sym('P')]], [Ref(0), Sym('>'), Ref(1), Sym('&'), Sym('Q'), Sym('>'), Sym('R')], [[Sym('P')], [Sym('S')]];
    ChainedImplicationStep2Found();
    SweepStep(Atoms, ts, els, 2, 1, 1, ts', els');
  }

  /** `P>S&Q>R`, propositions: the leftmost match is `Q`, at 4; it is new and becomes element 2. */
  lemma ChainedImplicationStep3Found()
    ensures FirstMatch(Atoms, [Ref(0), Sym('>'), Ref(1), Sym('&'), Sym('Q'), Sym('>'), Sym('R')], 0) == Some(4)
    ensures MatchLength(Atoms, [Ref(0), Sym('>'), Ref(1), Sym('&'), Sym('Q'), Sym('>'), Sym('R')], 4) == 1
    ensures [Ref(0), Sym('>'), Ref(1), Sym('&'), Ref(2), Sym('>'), Sym('R')] == [Ref(0), Sym('>'), Ref(1), Sym('&'), Sym('Q'), Sym('>'), Sym('R')][..4] + [Ref(2)] + [Ref(0), Sym('>'), Ref(1), Sym('&'), Sym('Q'), Sym('>'), Sym('R')][5..]
    ensures [Ref(0), Sym('>'), Ref(1), Sym('&'), Sym('Q'), Sym('>'), Sym('R')][4..5] == [Sym('Q')]
    ensures Intern([[Sym('P')], [Sym('S')]], [Sym('Q')]).0 == [[Sym('P')], [Sym('S')], [Sym('Q')]]
    ensures Intern([[Sym('P')], [Sym('S')]], [Sym('Q')]).1 == 2
  {
    var els, e := [[Sym('P')], [Sym('S')]], [Sym('Q')];
    assert els[0][0] != e[0];
    assert els[1][0] != e[0];
  }

  /** `P>S&Q>R`, propositions: `Q` is new and becomes element 2. */
  lemma ChainedImplicationStep3()
    requires Admissible([Ref(0), Sym('>'), Ref(1), Sym('&'), Sym('Q'), Sym('>'), Sym('R')], [[Sym('P')], [Sym('S')]])
    ensures Admissible([Ref(0), Sym('>'), Ref(1), Sym('&'), Ref(2), Sym('>'), Sym('R')], [[Sym('P')], [Sym('S')], [Sym('Q')]])
    ensures Sweep(Atoms, [Ref(0), Sym('>'), Ref(1), Sym('&'), Sym('Q'), Sym('>'), Sym('R')], [[Sym('P')], [Sym('S')]]) == Sweep(Atoms, [Ref(0), Sym('>'), Ref(1), Sym('&'), Ref(2), Sym('>'), Sym('R')], [[Sym('P')], [Sym('S')], [Sym('Q')]])
  {
    var ts, els, ts', els' := [Ref(0), Sym('>'), Ref(1), Sym('&'), Sym('Q'), Sym('>'), Sym('R')], [[Sym('P')], [Sym('S')]], [Ref(0), Sym('>'), Ref(1), Sym('&'), Ref(2), Sym('>'), Sym('R')], [[Sym('P')], [Sym('S')], [Sym('Q')]];
    ChainedImplicationStep3Found();
    SweepStep(Atoms, ts, els, 4, 1, 2, ts', els');
  }

  /** `P>S&Q>R`, propositions: the leftmost match is `R`, at 6; it is new and becomes element 3. */
  lemma ChainedImplicationStep4Found()
    ensures FirstMatch(Atoms, [Ref(0), Sym('>'), Ref(1), Sym('&'), Ref(2), Sym('>'), Sym('R')], 0) == Some(6)
    ensures MatchLength(Atoms, [Ref(0), Sym('>'), Ref(1), Sym('&'), Ref(2), Sym('>'), Sym('R')], 6) == 1
    ensures [Ref(0), Sym('>'), Ref(1), Sym('&'), Ref(2), Sym('>'), Ref(3)] == [Ref(0), Sym('>'), Ref(1), Sym('&'), Ref(2), Sym('>'), Sym('R')][..6] + [Ref(3)] + [Ref(0), Sym('>'), Ref(1), Sym('&'), Ref(2), Sym('>'), Sym('R')][7..]
    ensures [Ref(0), Sym('>'), Ref(1), Sym('&'), Ref(2), Sym('>'), Sym('R')][6..7] == [Sym('R')]
    ensures Intern([[Sym('P')], [Sym('S')], [Sym('Q')]], [Sym('R')]).0 == [[Sym('P')], [Sym('S')], [Sym('Q')], [Sym('R')]]
    ensures Intern([[Sym('P')], [Sym('S')], [Sym('Q')]], [Sym('R')]).1 == 3
  {
    var els, e := [[Sym('P')], [Sym('S')], [Sym('Q')]], [Sym('R')];
    assert els[0][0] != e[0];
    assert els[1][0] != e[0];
    assert els[2][0] != e[0];
  }

  /** `P>S&Q>R`, propositions: `R` is new and becomes element 3. */
  lemma ChainedImplicationStep4()
    requires Admissible([Ref(0), Sym('>'), Ref(1), Sym('&'), Ref(2), Sym('>'), Sym('R')], [[Sym('P')], [Sym('S')], [Sym('Q')]])
    ensures Admissible([Ref(0), Sym('>'), Ref(1), Sym('&'), Ref(2), Sym('>'), Ref(3)], [[Sym('P')], [Sym('S')], [Sym('Q')], [Sym('R')]])
    ensures Sweep(Atoms, [Ref(0), Sym('>'), Ref(1), Sym('&'), Ref(2), Sym('>'), Sym('R')], [[Sym('P')], [Sym('S')], [Sym('Q')]]) == Sweep(Atoms, [Ref(0), Sym('>'), Ref(1), Sym('&'), Ref(2), Sym('>'), Ref(3)], [[Sym('P')], [Sym('S')], [Sym('Q')], [Sym('R')]])
  {
    var ts, els, ts', els' := [Ref(0), Sym('>'), Ref(1), Sym('&'), Ref(2), Sym('>'), Sym('R')], [[Sym('P')], [Sym('S')], [Sym('Q')]], [Ref(0), Sym('>'), Ref(1), Sym('&'), Ref(2), Sym('>'), Ref(3)], [[Sym('P')], [Sym('S')], [Sym('Q')], [Sym('R')]];
    ChainedImplicationStep4Found();
    SweepStep(Atoms, ts, els, 6, 1, 3, ts', els');
  }

  /** `P>S&Q>R`, conjunctions and disjunctions: the leftmost match is `1&2`, at 2; it is new and becomes element 4. */
  lemma ChainedImplicationStep5Found()
    ensures FirstMatch(Junctions, [Ref(0), Sym('>'), Ref(1), Sym('&'), Ref(2), Sym('>'), Ref(3)], 0) == Some(2)
    ensures MatchLength(Junctions, [Ref(0), Sym('>'), Ref(1), Sym('&'), Ref(2), Sym('>'), Ref(3)], 2) == 3
    ensures [Ref(0), Sym('>'), Ref(4), Sym('>'), Ref(3)] == [Ref(0), Sym('>'), Ref(1), Sym('&'), Ref(2), Sym('>'), Ref(3)][..2] + [Ref(4)] + [Ref(0), Sym('>'), Ref(1), Sym('&'), Ref(2), Sym('>'), Ref(3)][5..]
    ensures [Ref(0), Sym('>'), Ref(1), Sym('&'), Ref(2), Sym('>'), Ref(3)][2..5] == [Ref(1), Sym('&'), Ref(2)]
    ensures Intern([[Sym('P')], [Sym('S')], [Sym('Q')], [Sym('R')]], [Ref(1), Sym('&'), Ref(2)]).0 == [[Sym('P')], [Sym('S')], [Sym('Q')], [Sym('R')], [Ref(1), Sym('&'), Ref(2)]]
    ensures Intern([[Sym('P')], [Sym('S')], [Sym('Q')], [Sym('R')]], [Ref(1), Sym('&'), Ref(2)]).1 == 4
  {
    var els, e := [[Sym('P')], [Sym('S')], [Sym('Q')], [Sym('R')]], [Ref(1), Sym('&'), Ref(2)];
    assert |els[0]| != |e|;
    assert |els[1]| != |e|;
    assert |els[2]| != |e|;
    assert |els[3]| != |e|;
  }

  /** `P>S&Q>R`, conjunctions and disjunctions: `1&2` is new and becomes element 4. */
  lemma ChainedImplicationStep5()
    requires Admissible([Ref(0), Sym('>'), Ref(1), Sym('&'), Ref(2), Sym('>'), Ref(3)], [[Sym('P')], [Sym('S')], [Sym('Q')], [Sym('R')]])
    ensures Admissible([Ref(0), Sym('>'), Ref(4), Sym('>'), Ref(3)], [[Sym('P')], [Sym('S')], [Sym('Q')], [Sym('R')], [Ref(1), Sym('&'), Ref(2)]])
    ensures Sweep(Junctions, [Ref(0), Sym('>'), Ref(1), Sym('&'), Ref(2), Sym('>'), Ref(3)], [[Sym('P')], [Sym('S')], [Sym('Q')], [Sym('R')]]) == Sweep(Junctions, [Ref(0), Sym('>'), Ref(4), Sym('>'), Ref(3)], [[Sym('P')], [Sym('S')], [Sym('Q')], [Sym('R')], [Ref(1), Sym('&'), Ref(2)]])
  {
    var ts, els, ts', els' := [Ref(0), Sym('>'), Ref(1), Sym('&'), Ref(2), Sym('>'), Ref(3)], [[Sym('P')], [Sym('S')], [Sym('Q')], [Sym('R')]], [Ref(0), Sym('>'), Ref(4), Sym('>'), Ref(3)], [[Sym('P')], [Sym('S')], [Sym('Q')], [Sym('R')], [Ref(1), Sym('&'), Ref(2)]];
    ChainedImplicationStep5Found();
    SweepStep(Junctions, ts, els, 2, 3, 4, ts', els');
  }

  /** `P>S&Q>R`, implications: the leftmost match is `0>4`, at 0; it is new and becomes element 5. */
  lemma ChainedImplicationStep6Found()
    ensures FirstMatch(Implications, [Ref(0), Sym('>'), Ref(4), Sym('>'), Ref(3)], 0) == Some(0)
    ensures MatchLength(Implications, [Ref(0), Sym('>'), Ref(4), Sym('>'), Ref(3)], 0) == 3
    ensures [Ref(5), Sym('>'), Ref(3)] == [Ref(0), Sym('>'), Ref(4), Sym('>'), Ref(3)][..0] + [Ref(5)] + [Ref(0), Sym('>'), Ref(4), Sym('>'), Ref(3)][3..]
    ensures [Ref(0), Sym('>'), Ref(4), Sym('>'), Ref(3)][0..3] == [Ref(0), Sym('>'), Ref(4)]
    ensures Intern([[Sym('P')], [Sym('S')], [Sym('Q')], [Sym('R')], [Ref(1), Sym('&'), Ref(2)]], [Ref(0), Sym('>'), Ref(4)]).0 == [[Sym('P')], [Sym('S')], [Sym('Q')], [Sym('R')], [Ref(1), Sym('&'), Ref(2)], [Ref(0), Sym('>'), Ref(4)]]
    ensures Intern([[Sym('P')], [Sym('S')], [Sym('Q')], [Sym('R')], [Ref(1), Sym('&'), Ref(2)]], [Ref(0), Sym('>'), Ref(4)]).1 == 5
  {
    var els, e := [[Sym('P')], [Sym('S')], [Sym('Q')], [Sym('R')], [Ref(1), Sym('&'), Ref(2)]], [Ref(0), Sym('>'), Ref(4)];
    assert |els[0]| != |e|;
    assert |els[1]| != |e|;
    assert |els[2]| != |e|;
    assert |els[3]| != |e|;
    assert els[4][0] != e[0];
  }

  /** `P>S&Q>R`, implications: `0>4` is new and becomes element 5. */
  lemma ChainedImplicationStep6()
    requires Admissible([Ref(0), Sym('>'), Ref(4), Sym('>'), Ref(3)], [[Sym('P')], [Sym('S')], [Sym('Q')], [Sym('R')], [Ref(1), Sym('&'), Ref(2)]])
    ensures Admissible([Ref(5), Sym('>'), Ref(3)], [[Sym('P')], [Sym('S')], [Sym('Q')], [Sym('R')], [Ref(1), Sym('&'), Ref(2)], [Ref(0), Sym('>'), Ref(4)]])
    ensures Sweep(Implications, [Ref(0), Sym('>'), Ref(4), Sym('>'), Ref(3)], [[Sym('P')], [Sym('S')], [Sym('Q')], [Sym('R')], [Ref(1), Sym('&'), Ref(2)]]) == Sweep(Implications, [Ref(5), Sym('>'), Ref(3)], [[Sym('P')], [Sym('S')], [Sym('Q')], [Sym('R')], [Ref(1), Sym('&'), Ref(2)], [Ref(0), Sym('>'), Ref(4)]])
  {
    var ts, els, ts', els' := [Ref(0), Sym('>'), Ref(4), Sym('>'), Ref(3)], [[Sym('P')], [Sym('S')], [Sym('Q')], [Sym('R')], [Ref(1), Sym('&'), Ref(2)]], [Ref(5), Sym('>'), Ref(3)], [[Sym('P')], [Sym('S')], [Sym('Q')], [Sym('R')], [Ref(1), Sym('&'), Ref(2)], [Ref(0), Sym('>'), Ref(4)]];
    ChainedImplicationStep6Found();
    SweepStep(Implications, ts, els, 0, 3, 5, ts', els');
  }

  /** `P>S&Q>R`, implications: the leftmost match is `5>3`, at 0; it is new and becomes element 6. */
  lemma ChainedImplicationStep7Found()
    ensures FirstMatch(Implications, [Ref(5), Sym('>'), Ref(3)], 0) == Some(0)
    ensures MatchLength(Implications, [Ref(5), Sym('>'), Ref(3)], 0) == 3
    ensures [Ref(6)] == [Ref(5), Sym('>'), Ref(3)][..0] + [Ref(6)] + [Ref(5), Sym('>'), Ref(3)][3..]
    ensures [Ref(5), Sym('>'), Ref(3)][0..3] == [Ref(5), Sym('>'), Ref(3)]
    ensures Intern([[Sym('P')], [Sym('S')], [Sym('Q')], [Sym('R')], [Ref(1), Sym('&'), Ref(2)], [Ref(0), Sym('>'), Ref(4)]], [Ref(5), Sym('>'), Ref(3)]).0 == [[Sym('P')], [Sym('S')], [Sym('Q')], [Sym('R')], [Ref(1), Sym('&'), Ref(2)], [Ref(0), Sym('>'), Ref(4)], [Ref(5), Sym('>'), Ref(3)]]
    ensures Intern([[Sym('P')], [Sym('S')], [Sym('Q')], [Sym('R')], [Ref(1), Sym('&'), Ref(2)], [Ref(0), Sym('>'), Ref(4)]], [Ref(5), Sym('>'), Ref(3)]).1 == 6
  {
    var els, e := [[Sym('P')], [Sym('S')], [Sym('Q')], [Sym('R')], [Ref(1), Sym('&'), Ref(2)], [Ref(0), Sym('>'), Ref(4)]], [Ref(5), Sym('>'), Ref(3)];
    assert |els[0]| != |e|;
    assert |els[1]| != |e|;
    assert |els[2]| != |e|;
    assert |els[3]| != |e|;
    assert els[4][0] != e[0];
    assert els[5][0] != e[0];
  }

  /** `P>S&Q>R`, implications: `5>3` is new and becomes element 6. */
  lemma ChainedImplicationStep7()
    requires Admissible([Ref(5), Sym('>'), Ref(3)], [[Sym('P')], [Sym('S')], [Sym('Q')], [Sym('R')], [Ref(1), Sym('&'), Ref(2)], [Ref(0), Sym('>'), Ref(4)]])
    ensures Admissible([Ref(6)], [[Sym('P')], [Sym('S')], [Sym('Q')], [Sym('R')], [Ref(1), Sym('&'), Ref(2)], [Ref(0), Sym('>'), Ref(4)], [Ref(5), Sym('>'), Ref(3)]])
    ensures Sweep(Implications, [Ref(5), Sym('>'), Ref(3)], [[Sym('P')], [Sym('S')], [Sym('Q')], [Sym('R')], [Ref(1), Sym('&'), Ref(2)], [Ref(0), Sym('>'), Ref(4)]]) == Sweep(Implications, [Ref(6)], [[Sym('P')], [Sym('S')], [Sym('Q')], [Sym('R')], [Ref(1), Sym('&'), Ref(2)], [Ref(0), Sym('>'), Ref(4)], [Ref(5), Sym('>'), Ref(3)]])
  {
    var ts, els, ts', els' := [Ref(5), Sym('>'), Ref(3)], [[Sym('P')], [Sym('S')], [Sym('Q')], [Sym('R')], [Ref(1), Sym('&'), Ref(2)], [Ref(0), Sym('>'), Ref(4)]], [Ref(6)], [[Sym('P')], [Sym('S')], [Sym('Q')], [Sym('R')], [Ref(1), Sym('&'), Ref(2)], [Ref(0), Sym('>'), Ref(4)], [Ref(5), Sym('>'), Ref(3)]];
    ChainedImplicationStep7Found();
    SweepStep(Implications, ts, els, 0, 3, 6, ts', els');
  }

  /** `P>S&Q>R`, rule 0 (propositions): 4 substitutions. */
  lemma ChainedImplicationAtoms()
    requires Admissible([Sym('P'), Sym('>'), Sym('S'), Sym('&'), Sym('Q'), Sym('>'), Sym('R')], NoElements)
    ensures Admissible([Ref(0), Sym('>'), Ref(1), Sym('&'), Ref(2), Sym('>'), Ref(3)], [[Sym('P')], [Sym('S')], [Sym('Q')], [Sym('R')]])
    ensures Sweep(Atoms, [Sym('P'), Sym('>'), Sym('S'), Sym('&'), Sym('Q'), Sym('>'), Sym('R')], NoElements) == Success(Flat([Ref(0), Sym('>'), Ref(1), Sym('&'), Ref(2), Sym('>'), Ref(3)], [[Sym('P')], [Sym('S')], [Sym('Q')], [Sym('R')]]))
  {
    var ts, els := [Ref(0), Sym('>'), Ref(1), Sym('&'), Ref(2), Sym('>'), Ref(3)], [[Sym('P')], [Sym('S')], [Sym('Q')], [Sym('R')]];
    ChainedImplicationStep1();
    ChainedImplicationStep2();
    ChainedImplicationStep3();
    ChainedImplicationStep4();
    ChainedImplicationDone();
    SweepStops(Atoms, ts, els);
  }

  /** `P>S&Q>R`, rule 1 (groups): nothing matches. */
  lemma ChainedImplicationGroups()
    requires Admissible([Ref(0), Sym('>'), Ref(1), Sym('&'), Ref(2), Sym('>'), Ref(3)], [[Sym('P')], [Sym('S')], [Sym('Q')], [Sym('R')]])
    ensures Admissible([Ref(0), Sym('>'), Ref(1), Sym('&'), Ref(2), Sym('>'), Ref(3)], [[Sym('P')], [Sym('S')], [Sym('Q')], [Sym('R')]])
    ensures Sweep(Groups, [Ref(0), Sym('>'), Ref(1), Sym('&'), Ref(2), Sym('>'), Ref(3)], [[Sym('P')], [Sym('S')], [Sym('Q')], [Sym('R')]]) == Success(Flat([Ref(0), Sym('>'), Ref(1), Sym('&'), Ref(2), Sym('>'), Ref(3)], [[Sym('P')], [Sym('S')], [Sym('Q')], [Sym('R')]]))
  {
    var ts, els := [Ref(0), Sym('>'), Ref(1), Sym('&'), Ref(2), Sym('>'), Ref(3)], [[Sym('P')], [Sym('S')], [Sym('Q')], [Sym('R')]];
    ChainedImplicationDone();
    SweepStops(Groups, ts, els);
  }

  /** `P>S&Q>R`, rule 2 (negations): nothing matches. */
  lemma ChainedImplicationNegations()
    requires Admissible([Ref(0), Sym('>'), Ref(1), Sym('&'), Ref(2), Sym('>'), Ref(3)], [[Sym('P')], [Sym('S')], [Sym('Q')], [Sym('R')]])
    ensures Admissible([Ref(0), Sym('>'), Ref(1), Sym('&'), Ref(2), Sym('>'), Ref(3)], [[Sym('P')], [Sym('S')], [Sym('Q')], [Sym('R')]])
    ensures Sweep(Negations, [Ref(0), Sym('>'), Ref(1), Sym('&'), Ref(2), Sym('>'), Ref(3)], [[Sym('P')], [Sym('S')], [Sym('Q')], [Sym('R')]]) == Success(Flat([Ref(0), Sym('>'), Ref(1), Sym('&'), Ref(2), Sym('>'), Ref(3)], [[Sym('P')], [Sym('S')], [Sym('Q')], [Sym('R')]]))
  {
    var ts, els := [Ref(0), Sym('>'), Ref(1), Sym('&'), Ref(2), Sym('>'), Ref(3)], [[Sym('P')], [Sym('S')], [Sym('Q')], [Sym('R')]];
    ChainedImplicationDone();
    SweepStops(Negations, ts, els);
  }

  /** `P>S&Q>R`, rule 3 (conjunctions and disjunctions): 1 substitution. */
  lemma ChainedImplicationJunctions()
    requires Admissible([Ref(0), Sym('>'), Ref(1), Sym('&'), Ref(2), Sym('>'), Ref(3)], [[Sym('P')], [Sym('S')], [Sym('Q')], [Sym('R')]])
    ensures Admissible([Ref(0), Sym('>'), Ref(4), Sym('>'), Ref(3)], [[Sym('P')], [Sym('S')], [Sym('Q')], [Sym('R')], [Ref(1), Sym('&'), Ref(2)]])
    ensures Sweep(Junctions, [Ref(0), Sym('>'), Ref(1), Sym('&'), Ref(2), Sym('>'), Ref(3)], [[Sym('P')], [Sym('S')], [Sym('Q')], [Sym('R')]]) == Success(Flat([Ref(0), Sym('>'), Ref(4), Sym('>'), Ref(3)], [[Sym('P')], [Sym('S')], [Sym('Q')], [Sym('R')], [Ref(1), Sym('&'), Ref(2)]]))
  {
    var ts, els := [Ref(0), Sym('>'), Ref(4), Sym('>'), Ref(3)], [[Sym('P')], [Sym('S')], [Sym('Q')], [Sym('R')], [Ref(1), Sym('&'), Ref(2)]];
    ChainedImplicationStep5();
    ChainedImplicationDone();
    SweepStops(Junctions, ts, els);
  }

  /** `P>S&Q>R`, rule 4 (implications): 2 substitutions. */
  lemma ChainedImplicationImplications()
    requires Admissible([Ref(0), Sym('>'), Ref(4), Sym('>'), Ref(3)], [[Sym('P')], [Sym('S')], [Sym('Q')], [Sym('R')], [Ref(1), Sym('&'), Ref(2)]])
    ensures Admissible([Ref(6)], [[Sym('P')], [Sym('S')], [Sym('Q')], [Sym('R')], [Ref(1), Sym('&'), Ref(2)], [Ref(0), Sym('>'), Ref(4)], [Ref(5), Sym('>'), Ref(3)]])
    ensures Sweep(Implications, [Ref(0), Sym('>'), Ref(4), Sym('>'), Ref(3)], [[Sym('P')], [Sym('S')], [Sym('Q')], [Sym('R')], [Ref(1), Sym('&'), Ref(2)]]) == Success(Flat([Ref(6)], [[Sym('P')], [Sym('S')], [Sym('Q')], [Sym('R')], [Ref(1), Sym('&'), Ref(2)], [Ref(0), Sym('>'), Ref(4)], [Ref(5), Sym('>'), Ref(3)]]))
  {
    var ts, els := [Ref(6)], [[Sym('P')], [Sym('S')], [Sym('Q')], [Sym('R')], [Ref(1), Sym('&'), Ref(2)], [Ref(0), Sym('>'), Ref(4)], [Ref(5), Sym('>'), Ref(3)]];
    ChainedImplicationStep6();
    ChainedImplicationStep7();
    ChainedImplicationDone();
    SweepStops(Implications, ts, els);
  }

  /** `P>S&Q>R`: once each rule has been swept, nothing is left for it to match. */
  lemma ChainedImplicationDone()
    ensures FirstMatch(Atoms, [Ref(0), Sym('>'), Ref(1), Sym('&'), Ref(2), Sym('>'), Ref(3)], 0) == None
    ensures FirstMatch(Groups, [Ref(0), Sym('>'), Ref(1), Sym('&'), Ref(2), Sym('>'), Ref(3)], 0) == None
    ensures FirstMatch(Negations, [Ref(0), Sym('>'), Ref(1), Sym('&'), Ref(2), Sym('>'), Ref(3)], 0) == None
    ensures FirstMatch(Junctions, [Ref(0), Sym('>'), Ref(4), Sym('>'), Ref(3)], 0) == None
    ensures FirstMatch(Implications, [Ref(6)], 0) == None
  {
  }

  /** `P>S&Q>R` flattens to element 6. */
  lemma ChainedImplicationFlattens()
    ensures Flatten([Sym('P'), Sym('>'), Sym('S'), Sym('&'), Sym('Q'), Sym('>'), Sym('R')], NoElements) == Success(Analysis([[Sym('P')], [Sym('S')], [Sym('Q')], [Sym('R')], [Ref(1), Sym('&'), Ref(2)], [Ref(0), Sym('>'), Ref(4)], [Ref(5), Sym('>'), Ref(3)]], 6))
  {
    var ts, els := [Sym('P'), Sym('>'), Sym('S'), Sym('&'), Sym('Q'), Sym('>'), Sym('R')], NoElements;
    var f1 := Flat([Ref(0), Sym('>'), Ref(1), Sym('&'), Ref(2), Sym('>'), Ref(3)], [[Sym('P')], [Sym('S')], [Sym('Q')], [Sym('R')]]);
    var f2 := Flat([Ref(0), Sym('>'), Ref(1), Sym('&'), Ref(2), Sym('>'), Ref(3)], [[Sym('P')], [Sym('S')], [Sym('Q')], [Sym('R')]]);
    var f3 := Flat([Ref(0), Sym('>'), Ref(1), Sym('&'), Ref(2), Sym('>'), Ref(3)], [[Sym('P')], [Sym('S')], [Sym('Q')], [Sym('R')]]);
    var f4 := Flat([Ref(0), Sym('>'), Ref(4), Sym('>'), Ref(3)], [[Sym('P')], [Sym('S')], [Sym('Q')], [Sym('R')], [Ref(1), Sym('&'), Ref(2)]]);
    var f5 := Flat([Ref(6)], [[Sym('P')], [Sym('S')], [Sym('Q')], [Sym('R')], [Ref(1), Sym('&'), Ref(2)], [Ref(0), Sym('>'), Ref(4)], [Ref(5), Sym('>'), Ref(3)]]);
    ChainedImplicationAtoms();
    ChainedImplicationGroups();
    ChainedImplicationNegations();
    ChainedImplicationJunctions();
    ChainedImplicationImplications();
    FlattenOfRules(ts, els, f1, f2, f3, f4, f5, 6);
  }


  // ---------------------------------------------------------------------
  // `P&Qv-R`
  // ---------------------------------------------------------------------

  /** `P&Qv-R`, propositions: the leftmost match is `P`, at 0; it is new and becomes element 0. */
  lemma MixedJunctionStep1Found()
    ensures FirstMatch(Atoms, [Sym('P'), Sym('&'), Sym('Q'), Sym('v'), Sym('-'), Sym('R')], 0) == Some(0)
    ensures MatchLength(Atoms, [Sym('P'), Sym('&'), Sym('Q'), Sym('v'), Sym('-'), Sym('R')], 0) == 1
    ensures [Ref(0), Sym('&'), Sym('Q'), Sym('v'), Sym('-'), Sym('R')] == [Sym('P'), Sym('&'), Sym('Q'), Sym('v'), Sym('-'), Sym('R')][..0] + [Ref(0)] + [Sym('P'), Sym('&'), Sym('Q'), Sym('v'), Sym('-'), Sym('R')][1..]
    ensures [Sym('P'), Sym('&'), Sym('Q'), Sym('v'), Sym('-'), Sym('R')][0..1] == [Sym('P')]
    ensures Intern(NoElements, [Sym('P')]).0 == [[Sym('P')]]
    ensures Intern(NoElements, [Sym('P')]).1 == 0
  {
  }

  /** `P&Qv-R`, propositions: `P` is new and becomes element 0. */
  lemma MixedJunctionStep1()
    requires Admissible([Sym('P'), Sym('&'), Sym('Q'), Sym('v'), Sym('-'), Sym('R')], NoElements)
    ensures Admissible([Ref(0), Sym('&'), Sym('Q'), Sym('v'), Sym('-'), Sym('R')], [[Sym('P')]])
    ensures Sweep(Atoms, [Sym('P'), Sym('&'), Sym('Q'), Sym('v'), Sym('-'), Sym('R')], NoElements) == Sweep(Atoms, [Ref(0), Sym('&'), Sym('Q'), Sym('v'), Sym('-'), Sym('R')], [[Sym('P')]])
  {
    var ts, els, ts', els' := [Sym('P'), Sym('&'), Sym('Q'), Sym('v'), Sym('-'), Sym('R')], NoElements, [Ref(0), Sym('&'), Sym('Q'), Sym('v'), Sym('-'), Sym('R')], [[Sym('P')]];
    MixedJunctionStep1Found();
    SweepStep(Atoms, ts, els, 0, 1, 0, ts', els');
  }

  /** `P&Qv-R`, propositions: the leftmost match is `Q`, at 2; it is new and becomes element 1. */
  lemma MixedJunctionStep2Found()
    ensures FirstMatch(Atoms, [Ref(0), Sym('&'), Sym('Q'), Sym('v'), Sym('-'), Sym('R')], 0) == Some(2)
    ensures MatchLength(Atoms, [Ref(0), Sym('&'), Sym('Q'), Sym('v'), Sym('-'), Sym('R')], 2) == 1
    ensures [Ref(0), Sym('&'), Ref(1), Sym('v'), Sym('-'), Sym('R')] == [Ref(0), Sym('&'), Sym('Q'), Sym('v'), Sym('-'), Sym('R')][..2] + [Ref(1)] + [Ref(0), Sym('&'), Sym('Q'), Sym('v'), Sym('-'), Sym('R')][3..]
    ensures [Ref(0), Sym('&'), Sym('Q'), Sym('v'), Sym('-'), Sym('R')][2..3] == [Sym('Q')]
    ensures Intern([[Sym('P')]], [Sym('Q')]).0 == [[Sym('P')], [Sym('Q')]]
    ensures Intern([[Sym('P')]], [Sym('Q')]).1 == 1
  {
    var els, e := [[Sym('P')]], [Sym('Q')];
    assert els[0][0] != e[0];
  }

  /** `P&Qv-R`, propositions: `Q` is new and becomes element 1. */
  lemma MixedJunctionStep2()
    requires Admissible([Ref(0), Sym('&'), Sym('Q'), Sym('v'), Sym('-'), Sym('R')], [[Sym('P')]])
    ensures Admissible([Ref(0), Sym('&'), Ref(1), Sym('v'), Sym('-'), Sym('R')], [[Sym('P')], [Sym('Q')]])
    ensures Sweep(Atoms, [Ref(0), Sym('&'), Sym('Q'), Sym('v'), Sym('-'), Sym('R')], [[Sym('P')]]) == Sweep(Atoms, [Ref(0), Sym('&'), Ref(1), Sym('v'), Sym('-'), Sym('R')], [[Sym('P')], [Sym('Q')]])
  {
    var ts, els, ts', els' := [Ref(0), Sym('&'), Sym('Q'), Sym('v'), Sym('-'), Sym('R')], [[Sym('P')]], [Ref(0), Sym('&'), Ref(1), Sym('v'), Sym('-'), Sym('R')], [[Sym('P')], [Sym('Q')]];
    MixedJunctionStep2Found();
    SweepStep(Atoms, ts, els, 2, 1, 1, ts', els');
  }

  /** `P&Qv-R`, propositions: the leftmost match is `R`, at 5; it is new and becomes element 2. */
  lemma MixedJunctionStep3Found()
    ensures FirstMatch(Atoms, [Ref(0), Sym('&'), Ref(1), Sym('v'), Sym('-'), Sym('R')], 0) == Some(5)
    ensures MatchLength(Atoms, [Ref(0), Sym('&'), Ref(1), Sym('v'), Sym('-'), Sym('R')], 5) == 1
    ensures [Ref(0), Sym('&'), Ref(1), Sym('v'), Sym('-'), Ref(2)] == [Ref(0), Sym('&'), Ref(1), Sym('v'), Sym('-'), Sym('R')][..5] + [Ref(2)] + [Ref(0), Sym('&'), Ref(1), Sym('v'), Sym('-'), Sym('R')][6..]
    ensures [Ref(0), Sym('&'), Ref(1), Sym('v'), Sym('-'), Sym('R')][5..6] == [Sym('R')]
    ensures Intern([[Sym('P')], [Sym('Q')]], [Sym('R')]).0 == [[Sym('P')], [Sym('Q')], [Sym('R')]]
    ensures Intern([[Sym('P')], [Sym('Q')]], [Sym('R')]).1 == 2
  {
    var els, e := [[Sym('P')], [Sym('Q')]], [Sym('R')];
    assert els[0][0] != e[0];
    assert els[1][0] != e[0];
  }

  /** `P&Qv-R`, propositions: `R` is new and becomes element 2. */
  lemma MixedJunctionStep3()
    requires Admissible([Ref(0), Sym('&'), Ref(1), Sym('v'), Sym('-'), Sym('R')], [[Sym('P')], [Sym('Q')]])
    ensures Admissible([Ref(0), Sym('&'), Ref(1), Sym('v'), Sym('-'), Ref(2)], [[Sym('P')], [Sym('Q')], [Sym('R')]])
    ensures Sweep(Atoms, [Ref(0), Sym('&'), Ref(1), Sym('v'), Sym('-'), Sym('R')], [[Sym('P')], [Sym('Q')]]) == Sweep(Atoms, [Ref(0), Sym('&'), Ref(1), Sym('v'), Sym('-'), Ref(2)], [[Sym('P')], [Sym('Q')], [Sym('R')]])
  {
    var ts, els, ts', els' := [Ref(0), Sym('&'), Ref(1), Sym('v'), Sym('-'), Sym('R')], [[Sym('P')], [Sym('Q')]], [Ref(0), Sym('&'), Ref(1), Sym('v'), Sym('-'), Ref(2)], [[Sym('P')], [Sym('Q')], [Sym('R')]];
    MixedJunctionStep3Found();
    SweepStep(Atoms, ts, els, 5, 1, 2, ts', els');
  }

  /** `P&Qv-R`, negations: the leftmost match is `-2`, at 4; it is new and becomes element 3. */
  lemma MixedJunctionStep4Found()
    ensures FirstMatch(Negations, [Ref(0), Sym('&'), Ref(1), Sym('v'), Sym('-'), Ref(2)], 0) == Some(4)
    ensures MatchLength(Negations, [Ref(0), Sym('&'), Ref(1), Sym('v'), Sym('-'), Ref(2)], 4) == 2
    ensures [Ref(0), Sym('&'), Ref(1), Sym('v'), Ref(3)] == [Ref(0), Sym('&'), Ref(1), Sym('v'), Sym('-'), Ref(2)][..4] + [Ref(3)] + [Ref(0), Sym('&'), Ref(1), Sym('v'), Sym('-'), Ref(2)][6..]
    ensures [Ref(0), Sym('&'), Ref(1), Sym('v'), Sym('-'), Ref(2)][4..6] == [Sym('-'), Ref(2)]
    ensures Intern([[Sym('P')], [Sym('Q')], [Sym('R')]], [Sym('-'), Ref(2)]).0 == [[Sym('P')], [Sym('Q')], [Sym('R')], [Sym('-'), Ref(2)]]
    ensures Intern([[Sym('P')], [Sym('Q')], [Sym('R')]], [Sym('-'), Ref(2)]).1 == 3
  {
    var els, e := [[Sym('P')], [Sym('Q')], [Sym('R')]], [Sym('-'), Ref(2)];
    assert |els[0]| != |e|;
    assert |els[1]| != |e|;
    assert |els[2]| != |e|;
  }

  /** `P&Qv-R`, negations: `-2` is new and becomes element 3. */
  lemma MixedJunctionStep4()
    requires Admissible([Ref(0), Sym('&'), Ref(1), Sym('v'), Sym('-'), Ref(2)], [[Sym('P')], [Sym('Q')], [Sym('R')]])
    ensures Admissible([Ref(0), Sym('&'), Ref(1), Sym('v'), Ref(3)], [[Sym('P')], [Sym('Q')], [Sym('R')], [Sym('-'), Ref(2)]])
    ensures Sweep(Negations, [Ref(0), Sym('&'), Ref(1), Sym('v'), Sym('-'), Ref(2)], [[Sym('P')], [Sym('Q')], [Sym('R')]]) == Sweep(Negations, [Ref(0), Sym('&'), Ref(1), Sym('v'), Ref(3)], [[Sym('P')], [Sym('Q')], [Sym('R')], [Sym('-'), Ref(2)]])
  {
    var ts, els, ts', els' := [Ref(0), Sym('&'), Ref(1), Sym('v'), Sym('-'), Ref(2)], [[Sym('P')], [Sym('Q')], [Sym('R')]], [Ref(0), Sym('&'), Ref(1), Sym('v'), Ref(3)], [[Sym('P')], [Sym('Q')], [Sym('R')], [Sym('-'), Ref(2)]];
    MixedJunctionStep4Found();
    SweepStep(Negations, ts, els, 4, 2, 3, ts', els');
  }

  /** `P&Qv-R`, conjunctions and disjunctions: the leftmost match is `0&1`, at 0; it is new and becomes element 4. */
  lemma MixedJunctionStep5Found()
    ensures FirstMatch(Junctions, [Ref(0), Sym('&'), Ref(1), Sym('v'), Ref(3)], 0) == Some(0)
    ensures MatchLength(Junctions, [Ref(0), Sym('&'), Ref(1), Sym('v'), Ref(3)], 0) == 3
    ensures [Ref(4), Sym('v'), Ref(3)] == [Ref(0), Sym('&'), Ref(1), Sym('v'), Ref(3)][..0] + [Ref(4)] + [Ref(0), Sym('&'), Ref(1), Sym('v'), Ref(3)][3..]
    ensures [Ref(0), Sym('&'), Ref(1), Sym('v'), Ref(3)][0..3] == [Ref(0), Sym('&'), Ref(1)]
    ensures Intern([[Sym('P')], [Sym('Q')], [Sym('R')], [Sym('-'), Ref(2)]], [Ref(0), Sym('&'), Ref(1)]).0 == [[Sym('P')], [Sym('Q')], [Sym('R')], [Sym('-'), Ref(2)], [Ref(0), Sym('&'), Ref(1)]]
    ensures Intern([[Sym('P')], [Sym('Q')], [Sym('R')], [Sym('-'), Ref(2)]], [Ref(0), Sym('&'), Ref(1)]).1 == 4
  {
    var els, e := [[Sym('P')], [Sym('Q')], [Sym('R')], [Sym('-'), Ref(2)]], [Ref(0), Sym('&'), Ref(1)];
    assert |els[0]| != |e|;
    assert |els[1]| != |e|;
    assert |els[2]| != |e|;
    assert |els[3]| != |e|;
  }

  /** `P&Qv-R`, conjunctions and disjunctions: `0&1` is new and becomes element 4. */
  lemma MixedJunctionStep5()
    requires Admissible([Ref(0), Sym('&'), Ref(1), Sym('v'), Ref(3)], [[Sym('P')], [Sym('Q')], [Sym('R')], [Sym('-'), Ref(2)]])
    ensures Admissible([Ref(4), Sym('v'), Ref(3)], [[Sym('P')], [Sym('Q')], [Sym('R')], [Sym('-'), Ref(2)], [Ref(0), Sym('&'), Ref(1)]])
    ensures Sweep(Junctions, [Ref(0), Sym('&'), Ref(1), Sym('v'), Ref(3)], [[Sym('P')], [Sym('Q')], [Sym('R')], [Sym('-'), Ref(2)]]) == Sweep(Junctions, [Ref(4), Sym('v'), Ref(3)], [[Sym('P')], [Sym('Q')], [Sym('R')], [Sym('-'), Ref(2)], [Ref(0), Sym('&'), Ref(1)]])
  {
    var ts, els, ts', els' := [Ref(0), Sym('&'), Ref(1), Sym('v'), Ref(3)], [[Sym('P')], [Sym('Q')], [Sym('R')], [Sym('-'), Ref(2)]], [Ref(4), Sym('v'), Ref(3)], [[Sym('P')], [Sym('Q')], [Sym('R')], [Sym('-'), Ref(2)], [Ref(0), Sym('&'), Ref(1)]];
    MixedJunctionStep5Found();
    SweepStep(Junctions, ts, els, 0, 3, 4, ts', els');
  }

  /** `P&Qv-R`, conjunctions and disjunctions: the leftmost match is `4v3`, at 0; it is new and becomes element 5. */
  lemma MixedJunctionStep6Found()
    ensures FirstMatch(Junctions, [Ref(4), Sym('v'), Ref(3)], 0) == Some(0)
    ensures MatchLength(Junctions, [Ref(4), Sym('v'), Ref(3)], 0) == 3
    ensures [Ref(5)] == [Ref(4), Sym('v'), Ref(3)][..0] + [Ref(5)] + [Ref(4), Sym('v'), Ref(3)][3..]
    ensures [Ref(4), Sym('v'), Ref(3)][0..3] == [Ref(4), Sym('v'), Ref(3)]
    ensures Intern([[Sym('P')], [Sym('Q')], [Sym('R')], [Sym('-'), Ref(2)], [Ref(0), Sym('&'), Ref(1)]], [Ref(4), Sym('v'), Ref(3)]).0 == [[Sym('P')], [Sym('Q')], [Sym('R')], [Sym('-'), Ref(2)], [Ref(0), Sym('&'), Ref(1)], [Ref(4), Sym('v'), Ref(3)]]
    ensures Intern([[Sym('P')], [Sym('Q')], [Sym('R')], [Sym('-'), Ref(2)], [Ref(0), Sym('&'), Ref(1)]], [Ref(4), Sym('v'), Ref(3)]).1 == 5
  {
    var els, e := [[Sym('P')], [Sym('Q')], [Sym('R')], [Sym('-'), Ref(2)], [Ref(0), Sym('&'), Ref(1)]], [Ref(4), Sym('v'), Ref(3)];
    assert |els[0]| != |e|;
    assert |els[1]| != |e|;
    assert |els[2]| != |e|;
    assert |els[3]| != |e|;
    assert els[4][0] != e[0];
  }

  /** `P&Qv-R`, conjunctions and disjunctions: `4v3` is new and becomes element 5. */
  lemma MixedJunctionStep6()
    requires Admissible([Ref(4), Sym('v'), Ref(3)], [[Sym('P')], [Sym('Q')], [Sym('R')], [Sym('-'), Ref(2)], [Ref(0), Sym('&'), Ref(1)]])
    ensures Admissible([Ref(5)], [[Sym('P')], [Sym('Q')], [Sym('R')], [Sym('-'), Ref(2)], [Ref(0), Sym('&'), Ref(1)], [Ref(4), Sym('v'), Ref(3)]])
    ensures Sweep(Junctions, [Ref(4), Sym('v'), Ref(3)], [[Sym('P')], [Sym('Q')], [Sym('R')], [Sym('-'), Ref(2)], [Ref(0), Sym('&'), Ref(1)]]) == Sweep(Junctions, [Ref(5)], [[Sym('P')], [Sym('Q')], [Sym('R')], [Sym('-'), Ref(2)], [Ref(0), Sym('&'), Ref(1)], [Ref(4), Sym('v'), Ref(3)]])
  {
    var ts, els, ts', els' := [Ref(4), Sym('v'), Ref(3)], [[Sym('P')], [Sym('Q')], [Sym('R')], [Sym('-'), Ref(2)], [Ref(0), Sym('&'), Ref(1)]], [Ref(5)], [[Sym('P')], [Sym('Q')], [Sym('R')], [Sym('-'), Ref(2)], [Ref(0), Sym('&'), Ref(1)], [Ref(4), Sym('v'), Ref(3)]];
    MixedJunctionStep6Found();
    SweepStep(Junctions, ts, els, 0, 3, 5, ts', els');
  }

  /** `P&Qv-R`, rule 0 (propositions): 3 substitutions. */
  lemma MixedJunctionAtoms()
    requires Admissible([Sym('P'), Sym('&'), Sym('Q'), Sym('v'), Sym('-'), Sym('R')], NoElements)
    ensures Admissible([Ref(0), Sym('&'), Ref(1), Sym('v'), Sym('-'), Ref(2)], [[Sym('P')], [Sym('Q')], [Sym('R')]])
    ensures Sweep(Atoms, [Sym('P'), Sym('&'), Sym('Q'), Sym('v'), Sym('-'), Sym('R')], NoElements) == Success(Flat([Ref(0), Sym('&'), Ref(1), Sym('v'), Sym('-'), Ref(2)], [[Sym('P')], [Sym('Q')], [Sym('R')]]))
  {
    var ts, els := [Ref(0), Sym('&'), Ref(1), Sym('v'), Sym('-'), Ref(2)], [[Sym('P')], [Sym('Q')], [Sym('R')]];
    MixedJunctionStep1();
    MixedJunctionStep2();
    MixedJunctionStep3();
    MixedJunctionDone();
    SweepStops(Atoms, ts, els);
  }

  /** `P&Qv-R`, rule 1 (groups): nothing matches. */
  lemma MixedJunctionGroups()
    requires Admissible([Ref(0), Sym('&'), Ref(1), Sym('v'), Sym('-'), Ref(2)], [[Sym('P')], [Sym('Q')], [Sym('R')]])
    ensures Admissible([Ref(0), Sym('&'), Ref(1), Sym('v'), Sym('-'), Ref(2)], [[Sym('P')], [Sym('Q')], [Sym('R')]])
    ensures Sweep(Groups, [Ref(0), Sym('&'), Ref(1), Sym('v'), Sym('-'), Ref(2)], [[Sym('P')], [Sym('Q')], [Sym('R')]]) == Success(Flat([Ref(0), Sym('&'), Ref(1), Sym('v'), Sym('-'), Ref(2)], [[Sym('P')], [Sym('Q')], [Sym('R')]]))
  {
    var ts, els := [Ref(0), Sym('&'), Ref(1), Sym('v'), Sym('-'), Ref(2)], [[Sym('P')], [Sym('Q')], [Sym('R')]];
    MixedJunctionDone();
    SweepStops(Groups, ts, els);
  }

  /** `P&Qv-R`, rule 2 (negations): 1 substitution. */
  lemma MixedJunctionNegations()
    requires Admissible([Ref(0), Sym('&'), Ref(1), Sym('v'), Sym('-'), Ref(2)], [[Sym('P')], [Sym('Q')], [Sym('R')]])
    ensures Admissible([Ref(0), Sym('&'), Ref(1), Sym('v'), Ref(3)], [[Sym('P')], [Sym('Q')], [Sym('R')], [Sym('-'), Ref(2)]])
    ensures Sweep(Negations, [Ref(0), Sym('&'), Ref(1), Sym('v'), Sym('-'), Ref(2)], [[Sym('P')], [Sym('Q')], [Sym('R')]]) == Success(Flat([Ref(0), Sym('&'), Ref(1), Sym('v'), Ref(3)], [[Sym('P')], [Sym('Q')], [Sym('R')], [Sym('-'), Ref(2)]]))
  {
    var ts, els := [Ref(0), Sym('&'), Ref(1), Sym('v'), Ref(3)], [[Sym('P')], [Sym('Q')], [Sym('R')], [Sym('-'), Ref(2)]];
    MixedJunctionStep4();
    MixedJunctionDone();
    SweepStops(Negations, ts, els);
  }

  /** `P&Qv-R`, rule 3 (conjunctions and disjunctions): 2 substitutions. */
  lemma MixedJunctionJunctions()
    requires Admissible([Ref(0), Sym('&'), Ref(1), Sym('v'), Ref(3)], [[Sym('P')], [Sym('Q')], [Sym('R')], [Sym('-'), Ref(2)]])
    ensures Admissible([Ref(5)], [[Sym('P')], [Sym('Q')], [Sym('R')], [Sym('-'), Ref(2)], [Ref(0), Sym('&'), Ref(1)], [Ref(4), Sym('v'), Ref(3)]])
    ensures Sweep(Junctions, [Ref(0), Sym('&'), Ref(1), Sym('v'), Ref(3)], [[Sym('P')], [Sym('Q')], [Sym('R')], [Sym('-'), Ref(2)]]) == Success(Flat([Ref(5)], [[Sym('P')], [Sym('Q')], [Sym('R')], [Sym('-'), Ref(2)], [Ref(0), Sym('&'), Ref(1)], [Ref(4), Sym('v'), Ref(3)]]))
  {
    var ts, els := [Ref(5)], [[Sym('P')], [Sym('Q')], [Sym('R')], [Sym('-'), Ref(2)], [Ref(0), Sym('&'), Ref(1)], [Ref(4), Sym('v'), Ref(3)]];
    MixedJunctionStep5();
    MixedJunctionStep6();
    MixedJunctionDone();
    SweepStops(Junctions, ts, els);
  }

  /** `P&Qv-R`, rule 4 (implications): nothing matches. */
  lemma MixedJunctionImplications()
    requires Admissible([Ref(5)], [[Sym('P')], [Sym('Q')], [Sym('R')], [Sym('-'), Ref(2)], [Ref(0), Sym('&'), Ref(1)], [Ref(4), Sym('v'), Ref(3)]])
    ensures Admissible([Ref(5)], [[Sym('P')], [Sym('Q')], [Sym('R')], [Sym('-'), Ref(2)], [Ref(0), Sym('&'), Ref(1)], [Ref(4), Sym('v'), Ref(3)]])
    ensures Sweep(Implications, [Ref(5)], [[Sym('P')], [Sym('Q')], [Sym('R')], [Sym('-'), Ref(2)], [Ref(0), Sym('&'), Ref(1)], [Ref(4), Sym('v'), Ref(3)]]) == Success(Flat([Ref(5)], [[Sym('P')], [Sym('Q')], [Sym('R')], [Sym('-'), Ref(2)], [Ref(0), Sym('&'), Ref(1)], [Ref(4), Sym('v'), Ref(3)]]))
  {
    var ts, els := [Ref(5)], [[Sym('P')], [Sym('Q')], [Sym('R')], [Sym('-'), Ref(2)], [Ref(0), Sym('&'), Ref(1)], [Ref(4), Sym('v'), Ref(3)]];
    MixedJunctionDone();
    SweepStops(Implications, ts, els);
  }

  /** `P&Qv-R`: once each rule has been swept, nothing is left for it to match. */
  lemma MixedJunctionDone()
    ensures FirstMatch(Atoms, [Ref(0), Sym('&'), Ref(1), Sym('v'), Sym('-'), Ref(2)], 0) == None
    ensures FirstMatch(Groups, [Ref(0), Sym('&'), Ref(1), Sym('v'), Sym('-'), Ref(2)], 0) == None
    ensures FirstMatch(Negations, [Ref(0), Sym('&'), Ref(1), Sym('v'), Ref(3)], 0) == None
    ensures FirstMatch(Junctions, [Ref(5)], 0) == None
    ensures FirstMatch(Implications, [Ref(5)], 0) == None
  {
  }

  /** `P&Qv-R` flattens to element 5. */
  lemma MixedJunctionFlattens()
    ensures Flatten([Sym('P'), Sym('&'), Sym('Q'), Sym('v'), Sym('-'), Sym('R')], NoElements) == Success(Analysis([[Sym('P')], [Sym('Q')], [Sym('R')], [Sym('-'), Ref(2)], [Ref(0), Sym('&'), Ref(1)], [Ref(4), Sym('v'), Ref(3)]], 5))
  {
    var ts, els := [Sym('P'), Sym('&'), Sym('Q'), Sym('v'), Sym('-'), Sym('R')], NoElements;
    var f1 := Flat([Ref(0), Sym('&'), Ref(1), Sym('v'), Sym('-'), Ref(2)], [[Sym('P')], [Sym('Q')], [Sym('R')]]);
    var f2 := Flat([Ref(0), Sym('&'), Ref(1), Sym('v'), Sym('-'), Ref(2)], [[Sym('P')], [Sym('Q')], [Sym('R')]]);
    var f3 := Flat([Ref(0), Sym('&'), Ref(1), Sym('v'), Ref(3)], [[Sym('P')], [Sym('Q')], [Sym('R')], [Sym('-'), Ref(2)]]);
    var f4 := Flat([Ref(5)], [[Sym('P')], [Sym('Q')], [Sym('R')], [Sym('-'), Ref(2)], [Ref(0), Sym('&'), Ref(1)], [Ref(4), Sym('v'), Ref(3)]]);
    var f5 := Flat([Ref(5)], [[Sym('P')], [Sym('Q')], [Sym('R')], [Sym('-'), Ref(2)], [Ref(0), Sym('&'), Ref(1)], [Ref(4), Sym('v'), Ref(3)]]);
    MixedJunctionAtoms();
    MixedJunctionGroups();
    MixedJunctionNegations();
    MixedJunctionJunctions();
    MixedJunctionImplications();
    FlattenOfRules(ts, els, f1, f2, f3, f4, f5, 5);
  }


  // ---------------------------------------------------------------------
  // `P>(P>Q)`
  // ---------------------------------------------------------------------

  /** `P>(P>Q)`, implications: the leftmost match is `0>1`, at 0; it is new and becomes element 2. */
  lemma NestedImplicationStep5Found()
    ensures FirstMatch(Implications, [Ref(0), Sym('>'), Ref(1)], 0) == Some(0)
    ensures MatchLength(Implications, [Ref(0), Sym('>'), Ref(1)], 0) == 3
    ensures [Ref(2)] == [Ref(0), Sym('>'), Ref(1)][..0] + [Ref(2)] + [Ref(0), Sym('>'), Ref(1)][3..]
    ensures [Ref(0), Sym('>'), Ref(1)][0..3] == [Ref(0), Sym('>'), Ref(1)]
    ensures Intern([[Sym('P')], [Sym('Q')]], [Ref(0), Sym('>'), Ref(1)]).0 == [[Sym('P')], [Sym('Q')], [Ref(0), Sym('>'), Ref(1)]]
    ensures Intern([[Sym('P')], [Sym('Q')]], [Ref(0), Sym('>'), Ref(1)]).1 == 2
  {
    var els, e := [[Sym('P')], [Sym('Q')]], [Ref(0), Sym('>'), Ref(1)];
    assert |els[0]| != |e|;
    assert |els[1]| != |e|;
  }

  /** `P>(P>Q)`, implications: `0>1` is new and becomes element 2. */
  lemma NestedImplicationStep5()
    requires Admissible([Ref(0), Sym('>'), Ref(1)], [[Sym('P')], [Sym('Q')]])
    ensures Admissible([Ref(2)], [[Sym('P')], [Sym('Q')], [Ref(0), Sym('>'), Ref(1)]])
    ensures Sweep(Implications, [Ref(0), Sym('>'), Ref(1)], [[Sym('P')], [Sym('Q')]]) == Sweep(Implications, [Ref(2)], [[Sym('P')], [Sym('Q')], [Ref(0), Sym('>'), Ref(1)]])
  {
    var ts, els, ts', els' := [Ref(0), Sym('>'), Ref(1)], [[Sym('P')], [Sym('Q')]], [Ref(2)], [[Sym('P')], [Sym('Q')], [Ref(0), Sym('>'), Ref(1)]];
    NestedImplicationStep5Found();
    SweepStep(Implications, ts, els, 0, 3, 2, ts', els');
  }

  /** In `P>(P>Q)`, the content `0>1` of a group, rule 0 (propositions): nothing matches. */
  lemma NestedImplicationGroup4Atoms()
    requires Admissible([Ref(0), Sym('>'), Ref(1)], [[Sym('P')], [Sym('Q')]])
    ensures Admissible([Ref(0), Sym('>'), Ref(1)], [[Sym('P')], [Sym('Q')]])
    ensures Sweep(Atoms, [Ref(0), Sym('>'), Ref(1)], [[Sym('P')], [Sym('Q')]]) == Success(Flat([Ref(0), Sym('>'), Ref(1)], [[Sym('P')], [Sym('Q')]]))
  {
    var ts, els := [Ref(0), Sym('>'), Ref(1)], [[Sym('P')], [Sym('Q')]];
    NestedImplicationGroup4Done();
    SweepStops(Atoms, ts, els);
  }

  /** In `P>(P>Q)`, the content `0>1` of a group, rule 1 (groups): nothing matches. */
  lemma NestedImplicationGroup4Groups()
    requires Admissible([Ref(0), Sym('>'), Ref(1)], [[Sym('P')], [Sym('Q')]])
    ensures Admissible([Ref(0), Sym('>'), Ref(1)], [[Sym('P')], [Sym('Q')]])
    ensures Sweep(Groups, [Ref(0), Sym('>'), Ref(1)], [[Sym('P')], [Sym('Q')]]) == Success(Flat([Ref(0), Sym('>'), Ref(1)], [[Sym('P')], [Sym('Q')]]))
  {
    var ts, els := [Ref(0), Sym('>'), Ref(1)], [[Sym('P')], [Sym('Q')]];
    NestedImplicationGroup4Done();
    SweepStops(Groups, ts, els);
  }

  /** In `P>(P>Q)`, the content `0>1` of a group, rule 2 (negations): nothing matches. */
  lemma NestedImplicationGroup4Negations()
    requires Admissible([Ref(0), Sym('>'), Ref(1)], [[Sym('P')], [Sym('Q')]])
    ensures Admissible([Ref(0), Sym('>'), Ref(1)], [[Sym('P')], [Sym('Q')]])
    ensures Sweep(Negations, [Ref(0), Sym('>'), Ref(1)], [[Sym('P')], [Sym('Q')]]) == Success(Flat([Ref(0), Sym('>'), Ref(1)], [[Sym('P')], [Sym('Q')]]))
  {
    var ts, els := [Ref(0), Sym('>'), Ref(1)], [[Sym('P')], [Sym('Q')]];
    NestedImplicationGroup4Done();
    SweepStops(Negations, ts, els);
  }

  /** In `P>(P>Q)`, the content `0>1` of a group, rule 3 (conjunctions and disjunctions): nothing matches. */
  lemma NestedImplicationGroup4Junctions()
    requires Admissible([Ref(0), Sym('>'), Ref(1)], [[Sym('P')], [Sym('Q')]])
    ensures Admissible([Ref(0), Sym('>'), Ref(1)], [[Sym('P')], [Sym('Q')]])
    ensures Sweep(Junctions, [Ref(0), Sym('>'), Ref(1)], [[Sym('P')], [Sym('Q')]]) == Success(Flat([Ref(0), Sym('>'), Ref(1)], [[Sym('P')], [Sym('Q')]]))
  {
    var ts, els := [Ref(0), Sym('>'), Ref(1)], [[Sym('P')], [Sym('Q')]];
    NestedImplicationGroup4Done();
    SweepStops(Junctions, ts, els);
  }

  /** In `P>(P>Q)`, the content `0>1` of a group, rule 4 (implications): 1 substitution. */
  lemma NestedImplicationGroup4Implications()
    requires Admissible([Ref(0), Sym('>'), Ref(1)], [[Sym('P')], [Sym('Q')]])
    ensures Admissible([Ref(2)], [[Sym('P')], [Sym('Q')], [Ref(0), Sym('>'), Ref(1)]])
    ensures Sweep(Implications, [Ref(0), Sym('>'), Ref(1)], [[Sym('P')], [Sym('Q')]]) == Success(Flat([Ref(2)], [[Sym('P')], [Sym('Q')], [Ref(0), Sym('>'), Ref(1)]]))
  {
    var ts, els := [Ref(2)], [[Sym('P')], [Sym('Q')], [Ref(0), Sym('>'), Ref(1)]];
    NestedImplicationStep5();
    NestedImplicationGroup4Done();
    SweepStops(Implications, ts, els);
  }

  /** In `P>(P>Q)`, the content `0>1` of a group: once each rule has been swept, nothing is left for it to match. */
  lemma NestedImplicationGroup4Done()
    ensures FirstMatch(Atoms, [Ref(0), Sym('>'), Ref(1)], 0) == None
    ensures FirstMatch(Groups, [Ref(0), Sym('>'), Ref(1)], 0) == None
    ensures FirstMatch(Negations, [Ref(0), Sym('>'), Ref(1)], 0) == None
    ensures FirstMatch(Junctions, [Ref(0), Sym('>'), Ref(1)], 0) == None
    ensures FirstMatch(Implications, [Ref(2)], 0) == None
  {
  }

  /** In `P>(P>Q)`, the content `0>1` of a group flattens to element 2. */
  lemma NestedImplicationGroup4Flattens()
    requires Admissible([Ref(0), Sym('>'), Ref(1)], [[Sym('P')], [Sym('Q')]])
    ensures Flatten([Ref(0), Sym('>'), Ref(1)], [[Sym('P')], [Sym('Q')]]) == Success(Analysis([[Sym('P')], [Sym('Q')], [Ref(0), Sym('>'), Ref(1)]], 2))
  {
    var ts, els := [Ref(0), Sym('>'), Ref(1)], [[Sym('P')], [Sym('Q')]];
    var f1 := Flat([Ref(0), Sym('>'), Ref(1)], [[Sym('P')], [Sym('Q')]]);
    var f2 := Flat([Ref(0), Sym('>'), Ref(1)], [[Sym('P')], [Sym('Q')]]);
    var f3 := Flat([Ref(0), Sym('>'), Ref(1)], [[Sym('P')], [Sym('Q')]]);
    var f4 := Flat([Ref(0), Sym('>'), Ref(1)], [[Sym('P')], [Sym('Q')]]);
    var f5 := Flat([Ref(2)], [[Sym('P')], [Sym('Q')], [Ref(0), Sym('>'), Ref(1)]]);
    NestedImplicationGroup4Atoms();
    NestedImplicationGroup4Groups();
    NestedImplicationGroup4Negations();
    NestedImplicationGroup4Junctions();
    NestedImplicationGroup4Implications();
    FlattenOfRules(ts, els, f1, f2, f3, f4, f5, 2);
  }

  /** `P>(P>Q)`, propositions: the leftmost match is `P`, at 0; it is new and becomes element 0. */
  lemma NestedImplicationStep1Found()
    ensures FirstMatch(Atoms, [Sym('P'), Sym('>'), Sym('('), Sym('P'), Sym('>'), Sym('Q'), Sym(')')], 0) == Some(0)
    ensures MatchLength(Atoms, [Sym('P'), Sym('>'), Sym('('), Sym('P'), Sym('>'), Sym('Q'), Sym(')')], 0) == 1
    ensures [Ref(0), Sym('>'), Sym('('), Sym('P'), Sym('>'), Sym('Q'), Sym(')')] == [Sym('P'), Sym('>'), Sym('('), Sym('P'), Sym('>'), Sym('Q'), Sym(')')][..0] + [Ref(0)] + [Sym('P'), Sym('>'), Sym('('), Sym('P'), Sym('>'), Sym('Q'), Sym(')')][1..]
    ensures [Sym('P'), Sym('>'), Sym('('), Sym('P'), Sym('>'), Sym('Q'), Sym(')')][0..1] == [Sym('P')]
    ensures Intern(NoElements, [Sym('P')]).0 == [[Sym('P')]]
    ensures Intern(NoElements, [Sym('P')]).1 == 0
  {
  }

  /** `P>(P>Q)`, propositions: `P` is new and becomes element 0. */
  lemma NestedImplicationStep1()
    requires Admissible([Sym('P'), Sym('>'), Sym('('), Sym('P'), Sym('>'), Sym('Q'), Sym(')')], NoElements)
    ensures Admissible([Ref(0), Sym('>'), Sym('('), Sym('P'), Sym('>'), Sym('Q'), Sym(')')], [[Sym('P')]])
    ensures Sweep(Atoms, [Sym('P'), Sym('>'), Sym('('), Sym('P'), Sym('>'), Sym('Q'), Sym(')')], NoElements) == Sweep(Atoms, [Ref(0), Sym('>'), Sym('('), Sym('P'), Sym('>'), Sym('Q'), Sym(')')], [[Sym('P')]])
  {
    var ts, els, ts', els' := [Sym('P'), Sym('>'), Sym('('), Sym('P'), Sym('>'), Sym('Q'), Sym(')')], NoElements, [Ref(0), Sym('>'), Sym('('), Sym('P'), Sym('>'), Sym('Q'), Sym(')')], [[Sym('P')]];
    NestedImplicationStep1Found();
    SweepStep(Atoms, ts, els, 0, 1, 0, ts', els');
  }

  /** `P>(P>Q)`, propositions: the leftmost match is `P`, at 3; it is element 0 already. */
  lemma NestedImplicationStep2Found()
    ensures FirstMatch(Atoms, [Ref(0), Sym('>'), Sym('('), Sym('P'), Sym('>'), Sym('Q'), Sym(')')], 0) == Some(3)
    ensures MatchLength(Atoms, [Ref(0), Sym('>'), Sym('('), Sym('P'), Sym('>'), Sym('Q'), Sym(')')], 3) == 1
    ensures [Ref(0), Sym('>'), Sym('('), Ref(0), Sym('>'), Sym('Q'), Sym(')')] == [Ref(0), Sym('>'), Sym('('), Sym('P'), Sym('>'), Sym('Q'), Sym(')')][..3] + [Ref(0)] + [Ref(0), Sym('>'), Sym('('), Sym('P'), Sym('>'), Sym('Q'), Sym(')')][4..]
    ensures [Ref(0), Sym('>'), Sym('('), Sym('P'), Sym('>'), Sym('Q'), Sym(')')][3..4] == [Sym('P')]
    ensures Intern([[Sym('P')]], [Sym('P')]).0 == [[Sym('P')]]
    ensures Intern([[Sym('P')]], [Sym('P')]).1 == 0
  {
    var els, e := [[Sym('P')]], [Sym('P')];
  }

  /** `P>(P>Q)`, propositions: `P` is element 0 already. */
  lemma NestedImplicationStep2()
    requires Admissible([Ref(0), Sym('>'), Sym('('), Sym('P'), Sym('>'), Sym('Q'), Sym(')')], [[Sym('P')]])
    ensures Admissible([Ref(0), Sym('>'), Sym('('), Ref(0), Sym('>'), Sym('Q'), Sym(')')], [[Sym('P')]])
    ensures Sweep(Atoms, [Ref(0), Sym('>'), Sym('('), Sym('P'), Sym('>'), Sym('Q'), Sym(')')], [[Sym('P')]]) == Sweep(Atoms, [Ref(0), Sym('>'), Sym('('), Ref(0), Sym('>'), Sym('Q'), Sym(')')], [[Sym('P')]])
  {
    var ts, els, ts', els' := [Ref(0), Sym('>'), Sym('('), Sym('P'), Sym('>'), Sym('Q'), Sym(')')], [[Sym('P')]], [Ref(0), Sym('>'), Sym('('), Ref(0), Sym('>'), Sym('Q'), Sym(')')], [[Sym('P')]];
    NestedImplicationStep2Found();
    SweepStep(Atoms, ts, els, 3, 1, 0, ts', els');
  }

  /** `P>(P>Q)`, propositions: the leftmost match is `Q`, at 5; it is new and becomes element 1. */
  lemma NestedImplicationStep3Found()
    ensures FirstMatch(Atoms, [Ref(0), Sym('>'), Sym('('), Ref(0), Sym('>'), Sym('Q'), Sym(')')], 0) == Some(5)
    ensures MatchLength(Atoms, [Ref(0), Sym('>'), Sym('('), Ref(0), Sym('>'), Sym('Q'), Sym(')')], 5) == 1
    ensures [Ref(0), Sym('>'), Sym('('), Ref(0), Sym('>'), Ref(1), Sym(')')] == [Ref(0), Sym('>'), Sym('('), Ref(0), Sym('>'), Sym('Q'), Sym(')')][..5] + [Ref(1)] + [Ref(0), Sym('>'), Sym('('), Ref(0), Sym('>'), Sym('Q'), Sym(')')][6..]
    ensures [Ref(0), Sym('>'), Sym('('), Ref(0), Sym('>'), Sym('Q'), Sym(')')][5..6] == [Sym('Q')]
    ensures Intern([[Sym('P')]], [Sym('Q')]).0 == [[Sym('P')], [Sym('Q')]]
    ensures Intern([[Sym('P')]], [Sym('Q')]).1 == 1
  {
    var els, e := [[Sym('P')]], [Sym('Q')];
    assert els[0][0] != e[0];
  }

  /** `P>(P>Q)`, propositions: `Q` is new and becomes element 1. */
  lemma NestedImplicationStep3()
    requires Admissible([Ref(0), Sym('>'), Sym('('), Ref(0), Sym('>'), Sym('Q'), Sym(')')], [[Sym('P')]])
    ensures Admissible([Ref(0), Sym('>'), Sym('('), Ref(0), Sym('>'), Ref(1), Sym(')')], [[Sym('P')], [Sym('Q')]])
    ensures Sweep(Atoms, [Ref(0), Sym('>'), Sym('('), Ref(0), Sym('>'), Sym('Q'), Sym(')')], [[Sym('P')]]) == Sweep(Atoms, [Ref(0), Sym('>'), Sym('('), Ref(0), Sym('>'), Ref(1), Sym(')')], [[Sym('P')], [Sym('Q')]])
  {
    var ts, els, ts', els' := [Ref(0), Sym('>'), Sym('('), Ref(0), Sym('>'), Sym('Q'), Sym(')')], [[Sym('P')]], [Ref(0), Sym('>'), Sym('('), Ref(0), Sym('>'), Ref(1), Sym(')')], [[Sym('P')], [Sym('Q')]];
    NestedImplicationStep3Found();
    SweepStep(Atoms, ts, els, 5, 1, 1, ts', els');
  }

  /** `P>(P>Q)`, groups: the leftmost match is `(0>1)`, at 2. */
  lemma NestedImplicationStep4Found()
    ensures FirstMatch(Groups, [Ref(0), Sym('>'), Sym('('), Ref(0), Sym('>'), Ref(1), Sym(')')], 0) == Some(2)
    ensures MatchLength(Groups, [Ref(0), Sym('>'), Sym('('), Ref(0), Sym('>'), Ref(1), Sym(')')], 2) == 5
    ensures [Ref(0), Sym('>'), Ref(3)] == [Ref(0), Sym('>'), Sym('('), Ref(0), Sym('>'), Ref(1), Sym(')')][..2] + [Ref(3)] + [Ref(0), Sym('>'), Sym('('), Ref(0), Sym('>'), Ref(1), Sym(')')][7..]
    ensures [Ref(0), Sym('>'), Sym('('), Ref(0), Sym('>'), Ref(1), Sym(')')][3..6] == [Ref(0), Sym('>'), Ref(1)]
  {
  }

  /** `P>(P>Q)`: the group element `(0>1)` is new and becomes element 3. */
  lemma NestedImplicationStep4Interned()
    ensures 2 < |[[Sym('P')], [Sym('Q')], [Ref(0), Sym('>'), Ref(1)]]| && [[Sym('P')], [Sym('Q')], [Ref(0), Sym('>'), Ref(1)]][2] == [Ref(0), Sym('>'), Ref(1)]
    ensures Intern([[Sym('P')], [Sym('Q')], [Ref(0), Sym('>'), Ref(1)]], [Sym('(')] + [Ref(0), Sym('>'), Ref(1)] + [Sym(')')]).0 == [[Sym('P')], [Sym('Q')], [Ref(0), Sym('>'), Ref(1)], [Sym('('), Ref(0), Sym('>'), Ref(1), Sym(')')]]
    ensures Intern([[Sym('P')], [Sym('Q')], [Ref(0), Sym('>'), Ref(1)]], [Sym('(')] + [Ref(0), Sym('>'), Ref(1)] + [Sym(')')]).1 == 3
  {
    assert [Sym('(')] + [Ref(0), Sym('>'), Ref(1)] + [Sym(')')] == [Sym('('), Ref(0), Sym('>'), Ref(1), Sym(')')];
    var els, e := [[Sym('P')], [Sym('Q')], [Ref(0), Sym('>'), Ref(1)]], [Sym('('), Ref(0), Sym('>'), Ref(1), Sym(')')];
    assert |els[0]| != |e|;
    assert |els[1]| != |e|;
    assert |els[2]| != |e|;
  }

  /** `P>(P>Q)`, groups: the group at 2 becomes element 3. */
  lemma NestedImplicationStep4Substitution()
    requires Admissible([Ref(0), Sym('>'), Sym('('), Ref(0), Sym('>'), Ref(1), Sym(')')], [[Sym('P')], [Sym('Q')]])
    ensures Substitute(Groups, [Ref(0), Sym('>'), Sym('('), Ref(0), Sym('>'), Ref(1), Sym(')')], [[Sym('P')], [Sym('Q')]], 2, 5) == Success(Flat([Ref(0), Sym('>'), Ref(3)], [[Sym('P')], [Sym('Q')], [Ref(0), Sym('>'), Ref(1)], [Sym('('), Ref(0), Sym('>'), Ref(1), Sym(')')]]))
  {
    var ts, els, content := [Ref(0), Sym('>'), Sym('('), Ref(0), Sym('>'), Ref(1), Sym(')')], [[Sym('P')], [Sym('Q')]], [Ref(0), Sym('>'), Ref(1)];
    var inner, body := [[Sym('P')], [Sym('Q')], [Ref(0), Sym('>'), Ref(1)]], [Ref(0), Sym('>'), Ref(1)];
    var ts', els' := [Ref(0), Sym('>'), Ref(3)], [[Sym('P')], [Sym('Q')], [Ref(0), Sym('>'), Ref(1)], [Sym('('), Ref(0), Sym('>'), Ref(1), Sym(')')]];
    NestedImplicationStep4Found();
    NestedImplicationGroup4Flattens();
    NestedImplicationStep4Interned();
    GroupSubstitution(ts, els, 2, 5, content, inner, 2, body, 3, ts', els');
  }

  /** `P>(P>Q)`, groups: `(0>1)` `(0>1)` is new and becomes element 3. */
  lemma NestedImplicationStep4()
    requires Admissible([Ref(0), Sym('>'), Sym('('), Ref(0), Sym('>'), Ref(1), Sym(')')], [[Sym('P')], [Sym('Q')]])
    ensures Admissible([Ref(0), Sym('>'), Ref(3)], [[Sym('P')], [Sym('Q')], [Ref(0), Sym('>'), Ref(1)], [Sym('('), Ref(0), Sym('>'), Ref(1), Sym(')')]])
    ensures Sweep(Groups, [Ref(0), Sym('>'), Sym('('), Ref(0), Sym('>'), Ref(1), Sym(')')], [[Sym('P')], [Sym('Q')]]) == Sweep(Groups, [Ref(0), Sym('>'), Ref(3)], [[Sym('P')], [Sym('Q')], [Ref(0), Sym('>'), Ref(1)], [Sym('('), Ref(0), Sym('>'), Ref(1), Sym(')')]])
  {
    var ts, els, ts', els' := [Ref(0), Sym('>'), Sym('('), Ref(0), Sym('>'), Ref(1), Sym(')')], [[Sym('P')], [Sym('Q')]], [Ref(0), Sym('>'), Ref(3)], [[Sym('P')], [Sym('Q')], [Ref(0), Sym('>'), Ref(1)], [Sym('('), Ref(0), Sym('>'), Ref(1), Sym(')')]];
    NestedImplicationStep4Found();
    NestedImplicationStep4Substitution();
    SweepBy(Groups, ts, els, 2, 5, ts', els');
  }

  /** `P>(P>Q)`, implications: the leftmost match is `0>3`, at 0; it is new and becomes element 4. */
  lemma NestedImplicationStep6Found()
    ensures FirstMatch(Implications, [Ref(0), Sym('>'), Ref(3)], 0) == Some(0)
    ensures MatchLength(Implications, [Ref(0), Sym('>'), Ref(3)], 0) == 3
    ensures [Ref(4)] == [Ref(0), Sym('>'), Ref(3)][..0] + [Ref(4)] + [Ref(0), Sym('>'), Ref(3)][3..]
    ensures [Ref(0), Sym('>'), Ref(3)][0..3] == [Ref(0), Sym('>'), Ref(3)]
    ensures Intern([[Sym('P')], [Sym('Q')], [Ref(0), Sym('>'), Ref(1)], [Sym('('), Ref(0), Sym('>'), Ref(1), Sym(')')]], [Ref(0), Sym('>'), Ref(3)]).0 == [[Sym('P')], [Sym('Q')], [Ref(0), Sym('>'), Ref(1)], [Sym('('), Ref(0), Sym('>'), Ref(1), Sym(')')], [Ref(0), Sym('>'), Ref(3)]]
    ensures Intern([[Sym('P')], [Sym('Q')], [Ref(0), Sym('>'), Ref(1)], [Sym('('), Ref(0), Sym('>'), Ref(1), Sym(')')]], [Ref(0), Sym('>'), Ref(3)]).1 == 4
  {
    var els, e := [[Sym('P')], [Sym('Q')], [Ref(0), Sym('>'), Ref(1)], [Sym('('), Ref(0), Sym('>'), Ref(1), Sym(')')]], [Ref(0), Sym('>'), Ref(3)];
    assert |els[0]| != |e|;
    assert |els[1]| != |e|;
    assert els[2][2] != e[2];
    assert |els[3]| != |e|;
  }

  /** `P>(P>Q)`, implications: `0>3` is new and becomes element 4. */
  lemma NestedImplicationStep6()
    requires Admissible([Ref(0), Sym('>'), Ref(3)], [[Sym('P')], [Sym('Q')], [Ref(0), Sym('>'), Ref(1)], [Sym('('), Ref(0), Sym('>'), Ref(1), Sym(')')]])
    ensures Admissible([Ref(4)], [[Sym('P')], [Sym('Q')], [Ref(0), Sym('>'), Ref(1)], [Sym('('), Ref(0), Sym('>'), Ref(1), Sym(')')], [Ref(0), Sym('>'), Ref(3)]])
    ensures Sweep(Implications, [Ref(0), Sym('>'), Ref(3)], [[Sym('P')], [Sym('Q')], [Ref(0), Sym('>'), Ref(1)], [Sym('('), Ref(0), Sym('>'), Ref(1), Sym(')')]]) == Sweep(Implications, [Ref(4)], [[Sym('P')], [Sym('Q')], [Ref(0), Sym('>'), Ref(1)], [Sym('('), Ref(0), Sym('>'), Ref(1), Sym(')')], [Ref(0), Sym('>'), Ref(3)]])
  {
    var ts, els, ts', els' := [Ref(0), Sym('>'), Ref(3)], [[Sym('P')], [Sym('Q')], [Ref(0), Sym('>'), Ref(1)], [Sym('('), Ref(0), Sym('>'), Ref(1), Sym(')')]], [Ref(4)], [[Sym('P')], [Sym('Q')], [Ref(0), Sym('>'), Ref(1)], [Sym('('), Ref(0), Sym('>'), Ref(1), Sym(')')], [Ref(0), Sym('>'), Ref(3)]];
    NestedImplicationStep6Found();
    SweepStep(Implications, ts, els, 0, 3, 4, ts', els');
  }

  /** `P>(P>Q)`, rule 0 (propositions): 3 substitutions. */
  lemma NestedImplicationAtoms()
    requires Admissible([Sym('P'), Sym('>'), Sym('('), Sym('P'), Sym('>'), Sym('Q'), Sym(')')], NoElements)
    ensures Admissible([Ref(0), Sym('>'), Sym('('), Ref(0), Sym('>'), Ref(1), Sym(')')], [[Sym('P')], [Sym('Q')]])
    ensures Sweep(Atoms, [Sym('P'), Sym('>'), Sym('('), Sym('P'), Sym('>'), Sym('Q'), Sym(')')], NoElements) == Success(Flat([Ref(0), Sym('>'), Sym('('), Ref(0), Sym('>'), Ref(1), Sym(')')], [[Sym('P')], [Sym('Q')]]))
  {
    var ts, els := [Ref(0), Sym('>'), Sym('('), Ref(0), Sym('>'), Ref(1), Sym(')')], [[Sym('P')], [Sym('Q')]];
    NestedImplicationStep1();
    NestedImplicationStep2();
    NestedImplicationStep3();
    NestedImplicationDone();
    SweepStops(Atoms, ts, els);
  }

  /** `P>(P>Q)`, rule 1 (groups): 1 substitution. */
  lemma NestedImplicationGroups()
    requires Admissible([Ref(0), Sym('>'), Sym('('), Ref(0), Sym('>'), Ref(1), Sym(')')], [[Sym('P')], [Sym('Q')]])
    ensures Admissible([Ref(0), Sym('>'), Ref(3)], [[Sym('P')], [Sym('Q')], [Ref(0), Sym('>'), Ref(1)], [Sym('('), Ref(0), Sym('>'), Ref(1), Sym(')')]])
    ensures Sweep(Groups, [Ref(0), Sym('>'), Sym('('), Ref(0), Sym('>'), Ref(1), Sym(')')], [[Sym('P')], [Sym('Q')]]) == Success(Flat([Ref(0), Sym('>'), Ref(3)], [[Sym('P')], [Sym('Q')], [Ref(0), Sym('>'), Ref(1)], [Sym('('), Ref(0), Sym('>'), Ref(1), Sym(')')]]))
  {
    var ts, els := [Ref(0), Sym('>'), Ref(3)], [[Sym('P')], [Sym('Q')], [Ref(0), Sym('>'), Ref(1)], [Sym('('), Ref(0), Sym('>'), Ref(1), Sym(')')]];
    NestedImplicationStep4();
    NestedImplicationDone();
    SweepStops(Groups, ts, els);
  }

  /** `P>(P>Q)`, rule 2 (negations): nothing matches. */
  lemma NestedImplicationNegations()
    requires Admissible([Ref(0), Sym('>'), Ref(3)], [[Sym('P')], [Sym('Q')], [Ref(0), Sym('>'), Ref(1)], [Sym('('), Ref(0), Sym('>'), Ref(1), Sym(')')]])
    ensures Admissible([Ref(0), Sym('>'), Ref(3)], [[Sym('P')], [Sym('Q')], [Ref(0), Sym('>'), Ref(1)], [Sym('('), Ref(0), Sym('>'), Ref(1), Sym(')')]])
    ensures Sweep(Negations, [Ref(0), Sym('>'), Ref(3)], [[Sym('P')], [Sym('Q')], [Ref(0), Sym('>'), Ref(1)], [Sym('('), Ref(0), Sym('>'), Ref(1), Sym(')')]]) == Success(Flat([Ref(0), Sym('>'), Ref(3)], [[Sym('P')], [Sym('Q')], [Ref(0), Sym('>'), Ref(1)], [Sym('('), Ref(0), Sym('>'), Ref(1), Sym(')')]]))
  {
    var ts, els := [Ref(0), Sym('>'), Ref(3)], [[Sym('P')], [Sym('Q')], [Ref(0), Sym('>'), Ref(1)], [Sym('('), Ref(0), Sym('>'), Ref(1), Sym(')')]];
    NestedImplicationDone();
    SweepStops(Negations, ts, els);
  }

  /** `P>(P>Q)`, rule 3 (conjunctions and disjunctions): nothing matches. */
  lemma NestedImplicationJunctions()
    requires Admissible([Ref(0), Sym('>'), Ref(3)], [[Sym('P')], [Sym('Q')], [Ref(0), Sym('>'), Ref(1)], [Sym('('), Ref(0), Sym('>'), Ref(1), Sym(')')]])
    ensures Admissible([Ref(0), Sym('>'), Ref(3)], [[Sym('P')], [Sym('Q')], [Ref(0), Sym('>'), Ref(1)], [Sym('('), Ref(0), Sym('>'), Ref(1), Sym(')')]])
    ensures Sweep(Junctions, [Ref(0), Sym('>'), Ref(3)], [[Sym('P')], [Sym('Q')], [Ref(0), Sym('>'), Ref(1)], [Sym('('), Ref(0), Sym('>'), Ref(1), Sym(')')]]) == Success(Flat([Ref(0), Sym('>'), Ref(3)], [[Sym('P')], [Sym('Q')], [Ref(0), Sym('>'), Ref(1)], [Sym('('), Ref(0), Sym('>'), Ref(1), Sym(')')]]))
  {
    var ts, els := [Ref(0), Sym('>'), Ref(3)], [[Sym('P')], [Sym('Q')], [Ref(0), Sym('>'), Ref(1)], [Sym('('), Ref(0), Sym('>'), Ref(1), Sym(')')]];
    NestedImplicationDone();
    SweepStops(Junctions, ts, els);
  }

  /** `P>(P>Q)`, rule 4 (implications): 1 substitution. */
  lemma NestedImplicationImplications()
    requires Admissible([Ref(0), Sym('>'), Ref(3)], [[Sym('P')], [Sym('Q')], [Ref(0), Sym('>'), Ref(1)], [Sym('('), Ref(0), Sym('>'), Ref(1), Sym(')')]])
    ensures Admissible([Ref(4)], [[Sym('P')], [Sym('Q')], [Ref(0), Sym('>'), Ref(1)], [Sym('('), Ref(0), Sym('>'), Ref(1), Sym(')')], [Ref(0), Sym('>'), Ref(3)]])
    ensures Sweep(Implications, [Ref(0), Sym('>'), Ref(3)], [[Sym('P')], [Sym('Q')], [Ref(0), Sym('>'), Ref(1)], [Sym('('), Ref(0), Sym('>'), Ref(1), Sym(')')]]) == Success(Flat([Ref(4)], [[Sym('P')], [Sym('Q')], [Ref(0), Sym('>'), Ref(1)], [Sym('('), Ref(0), Sym('>'), Ref(1), Sym(')')], [Ref(0), Sym('>'), Ref(3)]]))
  {
    var ts, els := [Ref(4)], [[Sym('P')], [Sym('Q')], [Ref(0), Sym('>'), Ref(1)], [Sym('('), Ref(0), Sym('>'), Ref(1), Sym(')')], [Ref(0), Sym('>'), Ref(3)]];
    NestedImplicationStep6();
    NestedImplicationDone();
    SweepStops(Implications, ts, els);
  }

  /** `P>(P>Q)`: once each rule has been swept, nothing is left for it to match. */
  lemma NestedImplicationDone()
    ensures FirstMatch(Atoms, [Ref(0), Sym('>'), Sym('('), Ref(0), Sym('>'), Ref(1), Sym(')')], 0) == None
    ensures FirstMatch(Groups, [Ref(0), Sym('>'), Ref(3)], 0) == None
    ensures FirstMatch(Negations, [Ref(0), Sym('>'), Ref(3)], 0) == None
    ensures FirstMatch(Junctions, [Ref(0), Sym('>'), Ref(3)], 0) == None
    ensures FirstMatch(Implications, [Ref(4)], 0) == None
  {
  }

  /** `P>(P>Q)` flattens to element 4. */
  lemma NestedImplicationFlattens()
    ensures Flatten([Sym('P'), Sym('>'), Sym('('), Sym('P'), Sym('>'), Sym('Q'), Sym(')')], NoElements) == Success(Analysis([[Sym('P')], [Sym('Q')], [Ref(0), Sym('>'), Ref(1)], [Sym('('), Ref(0), Sym('>'), Ref(1), Sym(')')], [Ref(0), Sym('>'), Ref(3)]], 4))
  {
    var ts, els := [Sym('P'), Sym('>'), Sym('('), Sym('P'), Sym('>'), Sym('Q'), Sym(')')], NoElements;
    var f1 := Flat([Ref(0), Sym('>'), Sym('('), Ref(0), Sym('>'), Ref(1), Sym(')')], [[Sym('P')], [Sym('Q')]]);
    var f2 := Flat([Ref(0), Sym('>'), Ref(3)], [[Sym('P')], [Sym('Q')], [Ref(0), Sym('>'), Ref(1)], [Sym('('), Ref(0), Sym('>'), Ref(1), Sym(')')]]);
    var f3 := Flat([Ref(0), Sym('>'), Ref(3)], [[Sym('P')], [Sym('Q')], [Ref(0), Sym('>'), Ref(1)], [Sym('('), Ref(0), Sym('>'), Ref(1), Sym(')')]]);
    var f4 := Flat([Ref(0), Sym('>'), Ref(3)], [[Sym('P')], [Sym('Q')], [Ref(0), Sym('>'), Ref(1)], [Sym('('), Ref(0), Sym('>'), Ref(1), Sym(')')]]);
    var f5 := Flat([Ref(4)], [[Sym('P')], [Sym('Q')], [Ref(0), Sym('>'), Ref(1)], [Sym('('), Ref(0), Sym('>'), Ref(1), Sym(')')], [Ref(0), Sym('>'), Ref(3)]]);
    NestedImplicationAtoms();
    NestedImplicationGroups();
    NestedImplicationNegations();
    NestedImplicationJunctions();
    NestedImplicationImplications();
    FlattenOfRules(ts, els, f1, f2, f3, f4, f5, 4);
  }


  // ---------------------------------------------------------------------
  // `(P>(P>Q))`
  // ---------------------------------------------------------------------

  /** `(P>(P>Q))`, implications: the leftmost match is `0>1`, at 0; it is new and becomes element 2. */
  lemma WrappedNestedStep5Found()
    ensures FirstMatch(Implications, [Ref(0), Sym('>'), Ref(1)], 0) == Some(0)
    ensures MatchLength(Implications, [Ref(0), Sym('>'), Ref(1)], 0) == 3
    ensures [Ref(2)] == [Ref(0), Sym('>'), Ref(1)][..0] + [Ref(2)] + [Ref(0), Sym('>'), Ref(1)][3..]
    ensures [Ref(0), Sym('>'), Ref(1)][0..3] == [Ref(0), Sym('>'), Ref(1)]
    ensures Intern([[Sym('P')], [Sym('Q')]], [Ref(0), Sym('>'), Ref(1)]).0 == [[Sym('P')], [Sym('Q')], [Ref(0), Sym('>'), Ref(1)]]
    ensures Intern([[Sym('P')], [Sym('Q')]], [Ref(0), Sym('>'), Ref(1)]).1 == 2
  {
    var els, e := [[Sym('P')], [Sym('Q')]], [Ref(0), Sym('>'), Ref(1)];
    assert |els[0]| != |e|;
    assert |els[1]| != |e|;
  }

  /** `(P>(P>Q))`, implications: `0>1` is new and becomes element 2. */
  lemma WrappedNestedStep5()
    requires Admissible([Ref(0), Sym('>'), Ref(1)], [[Sym('P')], [Sym('Q')]])
    ensures Admissible([Ref(2)], [[Sym('P')], [Sym('Q')], [Ref(0), Sym('>'), Ref(1)]])
    ensures Sweep(Implications, [Ref(0), Sym('>'), Ref(1)], [[Sym('P')], [Sym('Q')]]) == Sweep(Implications, [Ref(2)], [[Sym('P')], [Sym('Q')], [Ref(0), Sym('>'), Ref(1)]])
  {
    var ts, els, ts', els' := [Ref(0), Sym('>'), Ref(1)], [[Sym('P')], [Sym('Q')]], [Ref(2)], [[Sym('P')], [Sym('Q')], [Ref(0), Sym('>'), Ref(1)]];
    WrappedNestedStep5Found();
    SweepStep(Implications, ts, els, 0, 3, 2, ts', els');
  }

  /** In `(P>(P>Q))`, the content `0>1` of a group, rule 0 (propositions): nothing matches. */
  lemma WrappedNestedGroup4Atoms()
    requires Admissible([Ref(0), Sym('>'), Ref(1)], [[Sym('P')], [Sym('Q')]])
    ensures Admissible([Ref(0), Sym('>'), Ref(1)], [[Sym('P')], [Sym('Q')]])
    ensures Sweep(Atoms, [Ref(0), Sym('>'), Ref(1)], [[Sym('P')], [Sym('Q')]]) == Success(Flat([Ref(0), Sym('>'), Ref(1)], [[Sym('P')], [Sym('Q')]]))
  {
    var ts, els := [Ref(0), Sym('>'), Ref(1)], [[Sym('P')], [Sym('Q')]];
    WrappedNestedGroup4Done();
    SweepStops(Atoms, ts, els);
  }

  /** In `(P>(P>Q))`, the content `0>1` of a group, rule 1 (groups): nothing matches. */
  lemma WrappedNestedGroup4Groups()
    requires Admissible([Ref(0), Sym('>'), Ref(1)], [[Sym('P')], [Sym('Q')]])
    ensures Admissible([Ref(0), Sym('>'), Ref(1)], [[Sym('P')], [Sym('Q')]])
    ensures Sweep(Groups, [Ref(0), Sym('>'), Ref(1)], [[Sym('P')], [Sym('Q')]]) == Success(Flat([Ref(0), Sym('>'), Ref(1)], [[Sym('P')], [Sym('Q')]]))
  {
    var ts, els := [Ref(0), Sym('>'), Ref(1)], [[Sym('P')], [Sym('Q')]];
    WrappedNestedGroup4Done();
    SweepStops(Groups, ts, els);
  }

  /** In `(P>(P>Q))`, the content `0>1` of a group, rule 2 (negations): nothing matches. */
  lemma WrappedNestedGroup4Negations()
    requires Admissible([Ref(0), Sym('>'), Ref(1)], [[Sym('P')], [Sym('Q')]])
    ensures Admissible([Ref(0), Sym('>'), Ref(1)], [[Sym('P')], [Sym('Q')]])
    ensures Sweep(Negations, [Ref(0), Sym('>'), Ref(1)], [[Sym('P')], [Sym('Q')]]) == Success(Flat([Ref(0), Sym('>'), Ref(1)], [[Sym('P')], [Sym('Q')]]))
  {
    var ts, els := [Ref(0), Sym('>'), Ref(1)], [[Sym('P')], [Sym('Q')]];
    WrappedNestedGroup4Done();
    SweepStops(Negations, ts, els);
  }

  /** In `(P>(P>Q))`, the content `0>1` of a group, rule 3 (conjunctions and disjunctions): nothing matches. */
  lemma WrappedNestedGroup4Junctions()
    requires Admissible([Ref(0), Sym('>'), Ref(1)], [[Sym('P')], [Sym('Q')]])
    ensures Admissible([Ref(0), Sym('>'), Ref(1)], [[Sym('P')], [Sym('Q')]])
    ensures Sweep(Junctions, [Ref(0), Sym('>'), Ref(1)], [[Sym('P')], [Sym('Q')]]) == Success(Flat([Ref(0), Sym('>'), Ref(1)], [[Sym('P')], [Sym('Q')]]))
  {
    var ts, els := [Ref(0), Sym('>'), Ref(1)], [[Sym('P')], [Sym('Q')]];
    WrappedNestedGroup4Done();
    SweepStops(Junctions, ts, els);
  }

  /** In `(P>(P>Q))`, the content `0>1` of a group, rule 4 (implications): 1 substitution. */
  lemma WrappedNestedGroup4Implications()
    requires Admissible([Ref(0), Sym('>'), Ref(1)], [[Sym('P')], [Sym('Q')]])
    ensures Admissible([Ref(2)], [[Sym('P')], [Sym('Q')], [Ref(0), Sym('>'), Ref(1)]])
    ensures Sweep(Implications, [Ref(0), Sym('>'), Ref(1)], [[Sym('P')], [Sym('Q')]]) == Success(Flat([Ref(2)], [[Sym('P')], [Sym('Q')], [Ref(0), Sym('>'), Ref(1)]]))
  {
    var ts, els := [Ref(2)], [[Sym('P')], [Sym('Q')], [Ref(0), Sym('>'), Ref(1)]];
    WrappedNestedStep5();
    WrappedNestedGroup4Done();
    SweepStops(Implications, ts, els);
  }

  /** In `(P>(P>Q))`, the content `0>1` of a group: once each rule has been swept, nothing is left for it to match. */
  lemma WrappedNestedGroup4Done()
    ensures FirstMatch(Atoms, [Ref(0), Sym('>'), Ref(1)], 0) == None
    ensures FirstMatch(Groups, [Ref(0), Sym('>'), Ref(1)], 0) == None
    ensures FirstMatch(Negations, [Ref(0), Sym('>'), Ref(1)], 0) == None
    ensures FirstMatch(Junctions, [Ref(0), Sym('>'), Ref(1)], 0) == None
    ensures FirstMatch(Implications, [Ref(2)], 0) == None
  {
  }

  /** In `(P>(P>Q))`, the content `0>1` of a group flattens to element 2. */
  lemma WrappedNestedGroup4Flattens()
    requires Admissible([Ref(0), Sym('>'), Ref(1)], [[Sym('P')], [Sym('Q')]])
    ensures Flatten([Ref(0), Sym('>'), Ref(1)], [[Sym('P')], [Sym('Q')]]) == Success(Analysis([[Sym('P')], [Sym('Q')], [Ref(0), Sym('>'), Ref(1)]], 2))
  {
    var ts, els := [Ref(0), Sym('>'), Ref(1)], [[Sym('P')], [Sym('Q')]];
    var f1 := Flat([Ref(0), Sym('>'), Ref(1)], [[Sym('P')], [Sym('Q')]]);
    var f2 := Flat([Ref(0), Sym('>'), Ref(1)], [[Sym('P')], [Sym('Q')]]);
    var f3 := Flat([Ref(0), Sym('>'), Ref(1)], [[Sym('P')], [Sym('Q')]]);
    var f4 := Flat([Ref(0), Sym('>'), Ref(1)], [[Sym('P')], [Sym('Q')]]);
    var f5 := Flat([Ref(2)], [[Sym('P')], [Sym('Q')], [Ref(0), Sym('>'), Ref(1)]]);
    WrappedNestedGroup4Atoms();
    WrappedNestedGroup4Groups();
    WrappedNestedGroup4Negations();
    WrappedNestedGroup4Junctions();
    WrappedNestedGroup4Implications();
    FlattenOfRules(ts, els, f1, f2, f3, f4, f5, 2);
  }

  /** `(P>(P>Q))`, implications: the leftmost match is `0>3`, at 0; it is new and becomes element 4. */
  lemma WrappedNestedStep7Found()
    ensures FirstMatch(Implications, [Ref(0), Sym('>'), Ref(3)], 0) == Some(0)
    ensures MatchLength(Implications, [Ref(0), Sym('>'), Ref(3)], 0) == 3
    ensures [Ref(4)] == [Ref(0), Sym('>'), Ref(3)][..0] + [Ref(4)] + [Ref(0), Sym('>'), Ref(3)][3..]
    ensures [Ref(0), Sym('>'), Ref(3)][0..3] == [Ref(0), Sym('>'), Ref(3)]
    ensures Intern([[Sym('P')], [Sym('Q')], [Ref(0), Sym('>'), Ref(1)], [Sym('('), Ref(0), Sym('>'), Ref(1), Sym(')')]], [Ref(0), Sym('>'), Ref(3)]).0 == [[Sym('P')], [Sym('Q')], [Ref(0), Sym('>'), Ref(1)], [Sym('('), Ref(0), Sym('>'), Ref(1), Sym(')')], [Ref(0), Sym('>'), Ref(3)]]
    ensures Intern([[Sym('P')], [Sym('Q')], [Ref(0), Sym('>'), Ref(1)], [Sym('('), Ref(0), Sym('>'), Ref(1), Sym(')')]], [Ref(0), Sym('>'), Ref(3)]).1 == 4
  {
    var els, e := [[Sym('P')], [Sym('Q')], [Ref(0), Sym('>'), Ref(1)], [Sym('('), Ref(0), Sym('>'), Ref(1), Sym(')')]], [Ref(0), Sym('>'), Ref(3)];
    assert |els[0]| != |e|;
    assert |els[1]| != |e|;
    assert els[2][2] != e[2];
    assert |els[3]| != |e|;
  }

  /** `(P>(P>Q))`, implications: `0>3` is new and becomes element 4. */
  lemma WrappedNestedStep7()
    requires Admissible([Ref(0), Sym('>'), Ref(3)], [[Sym('P')], [Sym('Q')], [Ref(0), Sym('>'), Ref(1)], [Sym('('), Ref(0), Sym('>'), Ref(1), Sym(')')]])
    ensures Admissible([Ref(4)], [[Sym('P')], [Sym('Q')], [Ref(0), Sym('>'), Ref(1)], [Sym('('), Ref(0), Sym('>'), Ref(1), Sym(')')], [Ref(0), Sym('>'), Ref(3)]])
    ensures Sweep(Implications, [Ref(0), Sym('>'), Ref(3)], [[Sym('P')], [Sym('Q')], [Ref(0), Sym('>'), Ref(1)], [Sym('('), Ref(0), Sym('>'), Ref(1), Sym(')')]]) == Sweep(Implications, [Ref(4)], [[Sym('P')], [Sym('Q')], [Ref(0), Sym('>'), Ref(1)], [Sym('('), Ref(0), Sym('>'), Ref(1), Sym(')')], [Ref(0), Sym('>'), Ref(3)]])
  {
    var ts, els, ts', els' := [Ref(0), Sym('>'), Ref(3)], [[Sym('P')], [Sym('Q')], [Ref(0), Sym('>'), Ref(1)], [Sym('('), Ref(0), Sym('>'), Ref(1), Sym(')')]], [Ref(4)], [[Sym('P')], [Sym('Q')], [Ref(0), Sym('>'), Ref(1)], [Sym('('), Ref(0), Sym('>'), Ref(1), Sym(')')], [Ref(0), Sym('>'), Ref(3)]];
    WrappedNestedStep7Found();
    SweepStep(Implications, ts, els, 0, 3, 4, ts', els');
  }

  /** In `(P>(P>Q))`, the content `0>3` of a group, rule 0 (propositions): nothing matches. */
  lemma WrappedNestedGroup6Atoms()
    requires Admissible([Ref(0), Sym('>'), Ref(3)], [[Sym('P')], [Sym('Q')], [Ref(0), Sym('>'), Ref(1)], [Sym('('), Ref(0), Sym('>'), Ref(1), Sym(')')]])
    ensures Admissible([Ref(0), Sym('>'), Ref(3)], [[Sym('P')], [Sym('Q')], [Ref(0), Sym('>'), Ref(1)], [Sym('('), Ref(0), Sym('>'), Ref(1), Sym(')')]])
    ensures Sweep(Atoms, [Ref(0), Sym('>'), Ref(3)], [[Sym('P')], [Sym('Q')], [Ref(0), Sym('>'), Ref(1)], [Sym('('), Ref(0), Sym('>'), Ref(1), Sym(')')]]) == Success(Flat([Ref(0), Sym('>'), Ref(3)], [[Sym('P')], [Sym('Q')], [Ref(0), Sym('>'), Ref(1)], [Sym('('), Ref(0), Sym('>'), Ref(1), Sym(')')]]))
  {
    var ts, els := [Ref(0), Sym('>'), Ref(3)], [[Sym('P')], [Sym('Q')], [Ref(0), Sym('>'), Ref(1)], [Sym('('), Ref(0), Sym('>'), Ref(1), Sym(')')]];
    WrappedNestedGroup6Done();
    SweepStops(Atoms, ts, els);
  }

  /** In `(P>(P>Q))`, the content `0>3` of a group, rule 1 (groups): nothing matches. */
  lemma WrappedNestedGroup6Groups()
    requires Admissible([Ref(0), Sym('>'), Ref(3)], [[Sym('P')], [Sym('Q')], [Ref(0), Sym('>'), Ref(1)], [Sym('('), Ref(0), Sym('>'), Ref(1), Sym(')')]])
    ensures Admissible([Ref(0), Sym('>'), Ref(3)], [[Sym('P')], [Sym('Q')], [Ref(0), Sym('>'), Ref(1)], [Sym('('), Ref(0), Sym('>'), Ref(1), Sym(')')]])
    ensures Sweep(Groups, [Ref(0), Sym('>'), Ref(3)], [[Sym('P')], [Sym('Q')], [Ref(0), Sym('>'), Ref(1)], [Sym('('), Ref(0), Sym('>'), Ref(1), Sym(')')]]) == Success(Flat([Ref(0), Sym('>'), Ref(3)], [[Sym('P')], [Sym('Q')], [Ref(0), Sym('>'), Ref(1)], [Sym('('), Ref(0), Sym('>'), Ref(1), Sym(')')]]))
  {
    var ts, els := [Ref(0), Sym('>'), Ref(3)], [[Sym('P')], [Sym('Q')], [Ref(0), Sym('>'), Ref(1)], [Sym('('), Ref(0), Sym('>'), Ref(1), Sym(')')]];
    WrappedNestedGroup6Done();
    SweepStops(Groups, ts, els);
  }

  /** In `(P>(P>Q))`, the content `0>3` of a group, rule 2 (negations): nothing matches. */
  lemma WrappedNestedGroup6Negations()
    requires Admissible([Ref(0), Sym('>'), Ref(3)], [[Sym('P')], [Sym('Q')], [Ref(0), Sym('>'), Ref(1)], [Sym('('), Ref(0), Sym('>'), Ref(1), Sym(')')]])
    ensures Admissible([Ref(0), Sym('>'), Ref(3)], [[Sym('P')], [Sym('Q')], [Ref(0), Sym('>'), Ref(1)], [Sym('('), Ref(0), Sym('>'), Ref(1), Sym(')')]])
    ensures Sweep(Negations, [Ref(0), Sym('>'), Ref(3)], [[Sym('P')], [Sym('Q')], [Ref(0), Sym('>'), Ref(1)], [Sym('('), Ref(0), Sym('>'), Ref(1), Sym(')')]]) == Success(Flat([Ref(0), Sym('>'), Ref(3)], [[Sym('P')], [Sym('Q')], [Ref(0), Sym('>'), Ref(1)], [Sym('('), Ref(0), Sym('>'), Ref(1), Sym(')')]]))
  {
    var ts, els := [Ref(0), Sym('>'), Ref(3)], [[Sym('P')], [Sym('Q')], [Ref(0), Sym('>'), Ref(1)], [Sym('('), Ref(0), Sym('>'), Ref(1), Sym(')')]];
    WrappedNestedGroup6Done();
    SweepStops(Negations, ts, els);
  }

  /** In `(P>(P>Q))`, the content `0>3` of a group, rule 3 (conjunctions and disjunctions): nothing matches. */
  lemma WrappedNestedGroup6Junctions()
    requires Admissible([Ref(0), Sym('>'), Ref(3)], [[Sym('P')], [Sym('Q')], [Ref(0), Sym('>'), Ref(1)], [Sym('('), Ref(0), Sym('>'), Ref(1), Sym(')')]])
    ensures Admissible([Ref(0), Sym('>'), Ref(3)], [[Sym('P')], [Sym('Q')], [Ref(0), Sym('>'), Ref(1)], [Sym('('), Ref(0), Sym('>'), Ref(1), Sym(')')]])
    ensures Sweep(Junctions, [Ref(0), Sym('>'), Ref(3)], [[Sym('P')], [Sym('Q')], [Ref(0), Sym('>'), Ref(1)], [Sym('('), Ref(0), Sym('>'), Ref(1), Sym(')')]]) == Success(Flat([Ref(0), Sym('>'), Ref(3)], [[Sym('P')], [Sym('Q')], [Ref(0), Sym('>'), Ref(1)], [Sym('('), Ref(0), Sym('>'), Ref(1), Sym(')')]]))
  {
    var ts, els := [Ref(0), Sym('>'), Ref(3)], [[Sym('P')], [Sym('Q')], [Ref(0), Sym('>'), Ref(1)], [Sym('('), Ref(0), Sym('>'), Ref(1), Sym(')')]];
    WrappedNestedGroup6Done();
    SweepStops(Junctions, ts, els);
  }

  /** In `(P>(P>Q))`, the content `0>3` of a group, rule 4 (implications): 1 substitution. */
  lemma WrappedNestedGroup6Implications()
    requires Admissible([Ref(0), Sym('>'), Ref(3)], [[Sym('P')], [Sym('Q')], [Ref(0), Sym('>'), Ref(1)], [Sym('('), Ref(0), Sym('>'), Ref(1), Sym(')')]])
    ensures Admissible([Ref(4)], [[Sym('P')], [Sym('Q')], [Ref(0), Sym('>'), Ref(1)], [Sym('('), Ref(0), Sym('>'), Ref(1), Sym(')')], [Ref(0), Sym('>'), Ref(3)]])
    ensures Sweep(Implications, [Ref(0), Sym('>'), Ref(3)], [[Sym('P')], [Sym('Q')], [Ref(0), Sym('>'), Ref(1)], [Sym('('), Ref(0), Sym('>'), Ref(1), Sym(')')]]) == Success(Flat([Ref(4)], [[Sym('P')], [Sym('Q')], [Ref(0), Sym('>'), Ref(1)], [Sym('('), Ref(0), Sym('>'), Ref(1), Sym(')')], [Ref(0), Sym('>'), Ref(3)]]))
  {
    var ts, els := [Ref(4)], [[Sym('P')], [Sym('Q')], [Ref(0), Sym('>'), Ref(1)], [Sym('('), Ref(0), Sym('>'), Ref(1), Sym(')')], [Ref(0), Sym('>'), Ref(3)]];
    WrappedNestedStep7();
    WrappedNestedGroup6Done();
    SweepStops(Implications, ts, els);
  }

  /** In `(P>(P>Q))`, the content `0>3` of a group: once each rule has been swept, nothing is left for it to match. */
  lemma WrappedNestedGroup6Done()
    ensures FirstMatch(Atoms, [Ref(0), Sym('>'), Ref(3)], 0) == None
    ensures FirstMatch(Groups, [Ref(0), Sym('>'), Ref(3)], 0) == None
    ensures FirstMatch(Negations, [Ref(0), Sym('>'), Ref(3)], 0) == None
    ensures FirstMatch(Junctions, [Ref(0), Sym('>'), Ref(3)], 0) == None
    ensures FirstMatch(Implications, [Ref(4)], 0) == None
  {
  }

  /** In `(P>(P>Q))`, the content `0>3` of a group flattens to element 4. */
  lemma WrappedNestedGroup6Flattens()
    requires Admissible([Ref(0), Sym('>'), Ref(3)], [[Sym('P')], [Sym('Q')], [Ref(0), Sym('>'), Ref(1)], [Sym('('), Ref(0), Sym('>'), Ref(1), Sym(')')]])
    ensures Flatten([Ref(0), Sym('>'), Ref(3)], [[Sym('P')], [Sym('Q')], [Ref(0), Sym('>'), Ref(1)], [Sym('('), Ref(0), Sym('>'), Ref(1), Sym(')')]]) == Success(Analysis([[Sym('P')], [Sym('Q')], [Ref(0), Sym('>'), Ref(1)], [Sym('('), Ref(0), Sym('>'), Ref(1), Sym(')')], [Ref(0), Sym('>'), Ref(3)]], 4))
  {
    var ts, els := [Ref(0), Sym('>'), Ref(3)], [[Sym('P')], [Sym('Q')], [Ref(0), Sym('>'), Ref(1)], [Sym('('), Ref(0), Sym('>'), Ref(1), Sym(')')]];
    var f1 := Flat([Ref(0), Sym('>'), Ref(3)], [[Sym('P')], [Sym('Q')], [Ref(0), Sym('>'), Ref(1)], [Sym('('), Ref(0), Sym('>'), Ref(1), Sym(')')]]);
    var f2 := Flat([Ref(0), Sym('>'), Ref(3)], [[Sym('P')], [Sym('Q')], [Ref(0), Sym('>'), Ref(1)], [Sym('('), Ref(0), Sym('>'), Ref(1), Sym(')')]]);
    var f3 := Flat([Ref(0), Sym('>'), Ref(3)], [[Sym('P')], [Sym('Q')], [Ref(0), Sym('>'), Ref(1)], [Sym('('), Ref(0), Sym('>'), Ref(1), Sym(')')]]);
    var f4 := Flat([Ref(0), Sym('>'), Ref(3)], [[Sym('P')], [Sym('Q')], [Ref(0), Sym('>'), Ref(1)], [Sym('('), Ref(0), Sym('>'), Ref(1), Sym(')')]]);
    var f5 := Flat([Ref(4)], [[Sym('P')], [Sym('Q')], [Ref(0), Sym('>'), Ref(1)], [Sym('('), Ref(0), Sym('>'), Ref(1), Sym(')')], [Ref(0), Sym('>'), Ref(3)]]);
    WrappedNestedGroup6Atoms();
    WrappedNestedGroup6Groups();
    WrappedNestedGroup6Negations();
    WrappedNestedGroup6Junctions();
    WrappedNestedGroup6Implications();
    FlattenOfRules(ts, els, f1, f2, f3, f4, f5, 4);
  }

  /** `(P>(P>Q))`, propositions: the leftmost match is `P`, at 1; it is new and becomes element 0. */
  lemma WrappedNestedStep1Found()
    ensures FirstMatch(Atoms, [Sym('('), Sym('P'), Sym('>'), Sym('('), Sym('P'), Sym('>'), Sym('Q'), Sym(')'), Sym(')')], 0) == Some(1)
    ensures MatchLength(Atoms, [Sym('('), Sym('P'), Sym('>'), Sym('('), Sym('P'), Sym('>'), Sym('Q'), Sym(')'), Sym(')')], 1) == 1
    ensures [Sym('('), Ref(0), Sym('>'), Sym('('), Sym('P'), Sym('>'), Sym('Q'), Sym(')'), Sym(')')] == [Sym('('), Sym('P'), Sym('>'), Sym('('), Sym('P'), Sym('>'), Sym('Q'), Sym(')'), Sym(')')][..1] + [Ref(0)] + [Sym('('), Sym('P'), Sym('>'), Sym('('), Sym('P'), Sym('>'), Sym('Q'), Sym(')'), Sym(')')][2..]
    ensures [Sym('('), Sym('P'), Sym('>'), Sym('('), Sym('P'), Sym('>'), Sym('Q'), Sym(')'), Sym(')')][1..2] == [Sym('P')]
    ensures Intern(NoElements, [Sym('P')]).0 == [[Sym('P')]]
    ensures Intern(NoElements, [Sym('P')]).1 == 0
  {
  }

  /** `(P>(P>Q))`, propositions: `P` is new and becomes element 0. */
  lemma WrappedNestedStep1()
    requires Admissible([Sym('('), Sym('P'), Sym('>'), Sym('('), Sym('P'), Sym('>'), Sym('Q'), Sym(')'), Sym(')')], NoElements)
    ensures Admissible([Sym('('), Ref(0), Sym('>'), Sym('('), Sym('P'), Sym('>'), Sym('Q'), Sym(')'), Sym(')')], [[Sym('P')]])
    ensures Sweep(Atoms, [Sym('('), Sym('P'), Sym('>'), Sym('('), Sym('P'), Sym('>'), Sym('Q'), Sym(')'), Sym(')')], NoElements) == Sweep(Atoms, [Sym('('), Ref(0), Sym('>'), Sym('('), Sym('P'), Sym('>'), Sym('Q'), Sym(')'), Sym(')')], [[Sym('P')]])
  {
    var ts, els, ts', els' := [Sym('('), Sym('P'), Sym('>'), Sym('('), Sym('P'), Sym('>'), Sym('Q'), Sym(')'), Sym(')')], NoElements, [Sym('('), Ref(0), Sym('>'), Sym('('), Sym('P'), Sym('>'), Sym('Q'), Sym(')'), Sym(')')], [[Sym('P')]];
    WrappedNestedStep1Found();
    SweepStep(Atoms, ts, els, 1, 1, 0, ts', els');
  }

  /** `(P>(P>Q))`, propositions: the leftmost match is `P`, at 4; it is element 0 already. */
  lemma WrappedNestedStep2Found()
    ensures FirstMatch(Atoms, [Sym('('), Ref(0), Sym('>'), Sym('('), Sym('P'), Sym('>'), Sym('Q'), Sym(')'), Sym(')')], 0) == Some(4)
    ensures MatchLength(Atoms, [Sym('('), Ref(0), Sym('>'), Sym('('), Sym('P'), Sym('>'), Sym('Q'), Sym(')'), Sym(')')], 4) == 1
    ensures [Sym('('), Ref(0), Sym('>'), Sym('('), Ref(0), Sym('>'), Sym('Q'), Sym(')'), Sym(')')] == [Sym('('), Ref(0), Sym('>'), Sym('('), Sym('P'), Sym('>'), Sym('Q'), Sym(')'), Sym(')')][..4] + [Ref(0)] + [Sym('('), Ref(0), Sym('>'), Sym('('), Sym('P'), Sym('>'), Sym('Q'), Sym(')'), Sym(')')][5..]
    ensures [Sym('('), Ref(0), Sym('>'), Sym('('), Sym('P'), Sym('>'), Sym('Q'), Sym(')'), Sym(')')][4..5] == [Sym('P')]
    ensures Intern([[Sym('P')]], [Sym('P')]).0 == [[Sym('P')]]
    ensures Intern([[Sym('P')]], [Sym('P')]).1 == 0
  {
    var els, e := [[Sym('P')]], [Sym('P')];
  }

  /** `(P>(P>Q))`, propositions: `P` is element 0 already. */
  lemma WrappedNestedStep2()
    requires Admissible([Sym('('), Ref(0), Sym('>'), Sym('('), Sym('P'), Sym('>'), Sym('Q'), Sym(')'), Sym(')')], [[Sym('P')]])
    ensures Admissible([Sym('('), Ref(0), Sym('>'), Sym('('), Ref(0), Sym('>'), Sym('Q'), Sym(')'), Sym(')')], [[Sym('P')]])
    ensures Sweep(Atoms, [Sym('('), Ref(0), Sym('>'), Sym('('), Sym('P'), Sym('>'), Sym('Q'), Sym(')'), Sym(')')], [[Sym('P')]]) == Sweep(Atoms, [Sym('('), Ref(0), Sym('>'), Sym('('), Ref(0), Sym('>'), Sym('Q'), Sym(')'), Sym(')')], [[Sym('P')]])
  {
    var ts, els, ts', els' := [Sym('('), Ref(0), Sym('>'), Sym('('), Sym('P'), Sym('>'), Sym('Q'), Sym(')'), Sym(')')], [[Sym('P')]], [Sym('('), Ref(0), Sym('>'), Sym('('), Ref(0), Sym('>'), Sym('Q'), Sym(')'), Sym(')')], [[Sym('P')]];
    WrappedNestedStep2Found();
    SweepStep(Atoms, ts, els, 4, 1, 0, ts', els');
  }

  /** `(P>(P>Q))`, propositions: the leftmost match is `Q`, at 6; it is new and becomes element 1. */
  lemma WrappedNestedStep3Found()
    ensures FirstMatch(Atoms, [Sym('('), Ref(0), Sym('>'), Sym('('), Ref(0), Sym('>'), Sym('Q'), Sym(')'), Sym(')')], 0) == Some(6)
    ensures MatchLength(Atoms, [Sym('('), Ref(0), Sym('>'), Sym('('), Ref(0), Sym('>'), Sym('Q'), Sym(')'), Sym(')')], 6) == 1
    ensures [Sym('('), Ref(0), Sym('>'), Sym('('), Ref(0), Sym('>'), Ref(1), Sym(')'), Sym(')')] == [Sym('('), Ref(0), Sym('>'), Sym('('), Ref(0), Sym('>'), Sym('Q'), Sym(')'), Sym(')')][..6] + [Ref(1)] + [Sym('('), Ref(0), Sym('>'), Sym('('), Ref(0), Sym('>'), Sym('Q'), Sym(')'), Sym(')')][7..]
    ensures [Sym('('), Ref(0), Sym('>'), Sym('('), Ref(0), Sym('>'), Sym('Q'), Sym(')'), Sym(')')][6..7] == [Sym('Q')]
    ensures Intern([[Sym('P')]], [Sym('Q')]).0 == [[Sym('P')], [Sym('Q')]]
    ensures Intern([[Sym('P')]], [Sym('Q')]).1 == 1
  {
    var els, e := [[Sym('P')]], [Sym('Q')];
    assert els[0][0] != e[0];
  }

  /** `(P>(P>Q))`, propositions: `Q` is new and becomes element 1. */
  lemma WrappedNestedStep3()
    requires Admissible([Sym('('), Ref(0), Sym('>'), Sym('('), Ref(0), Sym('>'), Sym('Q'), Sym(')'), Sym(')')], [[Sym('P')]])
    ensures Admissible([Sym('('), Ref(0), Sym('>'), Sym('('), Ref(0), Sym('>'), Ref(1), Sym(')'), Sym(')')], [[Sym('P')], [Sym('Q')]])
    ensures Sweep(Atoms, [Sym('('), Ref(0), Sym('>'), Sym('('), Ref(0), Sym('>'), Sym('Q'), Sym(')'), Sym(')')], [[Sym('P')]]) == Sweep(Atoms, [Sym('('), Ref(0), Sym('>'), Sym('('), Ref(0), Sym('>'), Ref(1), Sym(')'), Sym(')')], [[Sym('P')], [Sym('Q')]])
  {
    var ts, els, ts', els' := [Sym('('), Ref(0), Sym('>'), Sym('('), Ref(0), Sym('>'), Sym('Q'), Sym(')'), Sym(')')], [[Sym('P')]], [Sym('('), Ref(0), Sym('>'), Sym('('), Ref(0), Sym('>'), Ref(1), Sym(')'), Sym(')')], [[Sym('P')], [Sym('Q')]];
    WrappedNestedStep3Found();
    SweepStep(Atoms, ts, els, 6, 1, 1, ts', els');
  }

  /** `(P>(P>Q))`, groups: the leftmost match is `(0>1)`, at 3. */
  lemma WrappedNestedStep4Found()
    ensures FirstMatch(Groups, [Sym('('), Ref(0), Sym('>'), Sym('('), Ref(0), Sym('>'), Ref(1), Sym(')'), Sym(')')], 0) == Some(3)
    ensures MatchLength(Groups, [Sym('('), Ref(0), Sym('>'), Sym('('), Ref(0), Sym('>'), Ref(1), Sym(')'), Sym(')')], 3) == 5
    ensures [Sym('('), Ref(0), Sym('>'), Ref(3), Sym(')')] == [Sym('('), Ref(0), Sym('>'), Sym('('), Ref(0), Sym('>'), Ref(1), Sym(')'), Sym(')')][..3] + [Ref(3)] + [Sym('('), Ref(0), Sym('>'), Sym('('), Ref(0), Sym('>'), Ref(1), Sym(')'), Sym(')')][8..]
    ensures [Sym('('), Ref(0), Sym('>'), Sym('('), Ref(0), Sym('>'), Ref(1), Sym(')'), Sym(')')][4..7] == [Ref(0), Sym('>'), Ref(1)]
  {
  }

  /** `(P>(P>Q))`: the group element `(0>1)` is new and becomes element 3. */
  lemma WrappedNestedStep4Interned()
    ensures 2 < |[[Sym('P')], [Sym('Q')], [Ref(0), Sym('>'), Ref(1)]]| && [[Sym('P')], [Sym('Q')], [Ref(0), Sym('>'), Ref(1)]][2] == [Ref(0), Sym('>'), Ref(1)]
    ensures Intern([[Sym('P')], [Sym('Q')], [Ref(0), Sym('>'), Ref(1)]], [Sym('(')] + [Ref(0), Sym('>'), Ref(1)] + [Sym(')')]).0 == [[Sym('P')], [Sym('Q')], [Ref(0), Sym('>'), Ref(1)], [Sym('('), Ref(0), Sym('>'), Ref(1), Sym(')')]]
    ensures Intern([[Sym('P')], [Sym('Q')], [Ref(0), Sym('>'), Ref(1)]], [Sym('(')] + [Ref(0), Sym('>'), Ref(1)] + [Sym(')')]).1 == 3
  {
    assert [Sym('(')] + [Ref(0), Sym('>'), Ref(1)] + [Sym(')')] == [Sym('('), Ref(0), Sym('>'), Ref(1), Sym(')')];
    var els, e := [[Sym('P')], [Sym('Q')], [Ref(0), Sym('>'), Ref(1)]], [Sym('('), Ref(0), Sym('>'), Ref(1), Sym(')')];
    assert |els[0]| != |e|;
    assert |els[1]| != |e|;
    assert |els[2]| != |e|;
  }

  /** `(P>(P>Q))`, groups: the group at 3 becomes element 3. */
  lemma WrappedNestedStep4Substitution()
    requires Admissible([Sym('('), Ref(0), Sym('>'), Sym('('), Ref(0), Sym('>'), Ref(1), Sym(')'), Sym(')')], [[Sym('P')], [Sym('Q')]])
    ensures Substitute(Groups, [Sym('('), Ref(0), Sym('>'), Sym('('), Ref(0), Sym('>'), Ref(1), Sym(')'), Sym(')')], [[Sym('P')], [Sym('Q')]], 3, 5) == Success(Flat([Sym('('), Ref(0), Sym('>'), Ref(3), Sym(')')], [[Sym('P')], [Sym('Q')], [Ref(0), Sym('>'), Ref(1)], [Sym('('), Ref(0), Sym('>'), Ref(1), Sym(')')]]))
  {
    var ts, els, content := [Sym('('), Ref(0), Sym('>'), Sym('('), Ref(0), Sym('>'), Ref(1), Sym(')'), Sym(')')], [[Sym('P')], [Sym('Q')]], [Ref(0), Sym('>'), Ref(1)];
    var inner, body := [[Sym('P')], [Sym('Q')], [Ref(0), Sym('>'), Ref(1)]], [Ref(0), Sym('>'), Ref(1)];
    var ts', els' := [Sym('('), Ref(0), Sym('>'), Ref(3), Sym(')')], [[Sym('P')], [Sym('Q')], [Ref(0), Sym('>'), Ref(1)], [Sym('('), Ref(0), Sym('>'), Ref(1), Sym(')')]];
    WrappedNestedStep4Found();
    WrappedNestedGroup4Flattens();
    WrappedNestedStep4Interned();
    GroupSubstitution(ts, els, 3, 5, content, inner, 2, body, 3, ts', els');
  }

  /** `(P>(P>Q))`, groups: `(0>1)` `(0>1)` is new and becomes element 3. */
  lemma WrappedNestedStep4()
    requires Admissible([Sym('('), Ref(0), Sym('>'), Sym('('), Ref(0), Sym('>'), Ref(1), Sym(')'), Sym(')')], [[Sym('P')], [Sym('Q')]])
    ensures Admissible([Sym('('), Ref(0), Sym('>'), Ref(3), Sym(')')], [[Sym('P')], [Sym('Q')], [Ref(0), Sym('>'), Ref(1)], [Sym('('), Ref(0), Sym('>'), Ref(1), Sym(')')]])
    ensures Sweep(Groups, [Sym('('), Ref(0), Sym('>'), Sym('('), Ref(0), Sym('>'), Ref(1), Sym(')'), Sym(')')], [[Sym('P')], [Sym('Q')]]) == Sweep(Groups, [Sym('('), Ref(0), Sym('>'), Ref(3), Sym(')')], [[Sym('P')], [Sym('Q')], [Ref(0), Sym('>'), Ref(1)], [Sym('('), Ref(0), Sym('>'), Ref(1), Sym(')')]])
  {
    var ts, els, ts', els' := [Sym('('), Ref(0), Sym('>'), Sym('('), Ref(0), Sym('>'), Ref(1), Sym(')'), Sym(')')], [[Sym('P')], [Sym('Q')]], [Sym('('), Ref(0), Sym('>'), Ref(3), Sym(')')], [[Sym('P')], [Sym('Q')], [Ref(0), Sym('>'), Ref(1)], [Sym('('), Ref(0), Sym('>'), Ref(1), Sym(')')]];
    WrappedNestedStep4Found();
    WrappedNestedStep4Substitution();
    SweepBy(Groups, ts, els, 3, 5, ts', els');
  }

  /** `(P>(P>Q))`, groups: the leftmost match is `(0>3)`, at 0. */
  lemma WrappedNestedStep6Found()
    ensures FirstMatch(Groups, [Sym('('), Ref(0), Sym('>'), Ref(3), Sym(')')], 0) == Some(0)
    ensures MatchLength(Groups, [Sym('('), Ref(0), Sym('>'), Ref(3), Sym(')')], 0) == 5
    ensures [Ref(5)] == [Sym('('), Ref(0), Sym('>'), Ref(3), Sym(')')][..0] + [Ref(5)] + [Sym('('), Ref(0), Sym('>'), Ref(3), Sym(')')][5..]
    ensures [Sym('('), Ref(0), Sym('>'), Ref(3), Sym(')')][1..4] == [Ref(0), Sym('>'), Ref(3)]
  {
  }

  /** `(P>(P>Q))`: the group element `(0>3)` is new and becomes element 5. */
  lemma WrappedNestedStep6Interned()
    ensures 4 < |[[Sym('P')], [Sym('Q')], [Ref(0), Sym('>'), Ref(1)], [Sym('('), Ref(0), Sym('>'), Ref(1), Sym(')')], [Ref(0), Sym('>'), Ref(3)]]| && [[Sym('P')], [Sym('Q')], [Ref(0), Sym('>'), Ref(1)], [Sym('('), Ref(0), Sym('>'), Ref(1), Sym(')')], [Ref(0), Sym('>'), Ref(3)]][4] == [Ref(0), Sym('>'), Ref(3)]
    ensures Intern([[Sym('P')], [Sym('Q')], [Ref(0), Sym('>'), Ref(1)], [Sym('('), Ref(0), Sym('>'), Ref(1), Sym(')')], [Ref(0), Sym('>'), Ref(3)]], [Sym('(')] + [Ref(0), Sym('>'), Ref(3)] + [Sym(')')]).0 == [[Sym('P')], [Sym('Q')], [Ref(0), Sym('>'), Ref(1)], [Sym('('), Ref(0), Sym('>'), Ref(1), Sym(')')], [Ref(0), Sym('>'), Ref(3)], [Sym('('), Ref(0), Sym('>'), Ref(3), Sym(')')]]
    ensures Intern([[Sym('P')], [Sym('Q')], [Ref(0), Sym('>'), Ref(1)], [Sym('('), Ref(0), Sym('>'), Ref(1), Sym(')')], [Ref(0), Sym('>'), Ref(3)]], [Sym('(')] + [Ref(0), Sym('>'), Ref(3)] + [Sym(')')]).1 == 5
  {
    assert [Sym('(')] + [Ref(0), Sym('>'), Ref(3)] + [Sym(')')] == [Sym('('), Ref(0), Sym('>'), Ref(3), Sym(')')];
    var els, e := [[Sym('P')], [Sym('Q')], [Ref(0), Sym('>'), Ref(1)], [Sym('('), Ref(0), Sym('>'), Ref(1), Sym(')')], [Ref(0), Sym('>'), Ref(3)]], [Sym('('), Ref(0), Sym('>'), Ref(3), Sym(')')];
    assert |els[0]| != |e|;
    assert |els[1]| != |e|;
    assert |els[2]| != |e|;
    assert els[3][3] != e[3];
    assert |els[4]| != |e|;
  }

  /** `(P>(P>Q))`, groups: the group at 0 becomes element 5. */
  lemma WrappedNestedStep6Substitution()
    requires Admissible([Sym('('), Ref(0), Sym('>'), Ref(3), Sym(')')], [[Sym('P')], [Sym('Q')], [Ref(0), Sym('>'), Ref(1)], [Sym('('), Ref(0), Sym('>'), Ref(1), Sym(')')]])
    ensures Substitute(Groups, [Sym('('), Ref(0), Sym('>'), Ref(3), Sym(')')], [[Sym('P')], [Sym('Q')], [Ref(0), Sym('>'), Ref(1)], [Sym('('), Ref(0), Sym('>'), Ref(1), Sym(')')]], 0, 5) == Success(Flat([Ref(5)], [[Sym('P')], [Sym('Q')], [Ref(0), Sym('>'), Ref(1)], [Sym('('), Ref(0), Sym('>'), Ref(1), Sym(')')], [Ref(0), Sym('>'), Ref(3)], [Sym('('), Ref(0), Sym('>'), Ref(3), Sym(')')]]))
  {
    var ts, els, content := [Sym('('), Ref(0), Sym('>'), Ref(3), Sym(')')], [[Sym('P')], [Sym('Q')], [Ref(0), Sym('>'), Ref(1)], [Sym('('), Ref(0), Sym('>'), Ref(1), Sym(')')]], [Ref(0), Sym('>'), Ref(3)];
    var inner, body := [[Sym('P')], [Sym('Q')], [Ref(0), Sym('>'), Ref(1)], [Sym('('), Ref(0), Sym('>'), Ref(1), Sym(')')], [Ref(0), Sym('>'), Ref(3)]], [Ref(0), Sym('>'), Ref(3)];
    var ts', els' := [Ref(5)], [[Sym('P')], [Sym('Q')], [Ref(0), Sym('>'), Ref(1)], [Sym('('), Ref(0), Sym('>'), Ref(1), Sym(')')], [Ref(0), Sym('>'), Ref(3)], [Sym('('), Ref(0), Sym('>'), Ref(3), Sym(')')]];
    WrappedNestedStep6Found();
    WrappedNestedGroup6Flattens();
    WrappedNestedStep6Interned();
    GroupSubstitution(ts, els, 0, 5, content, inner, 4, body, 5, ts', els');
  }

  /** `(P>(P>Q))`, groups: `(0>3)` `(0>3)` is new and becomes element 5. */
  lemma WrappedNestedStep6()
    requires Admissible([Sym('('), Ref(0), Sym('>'), Ref(3), Sym(')')], [[Sym('P')], [Sym('Q')], [Ref(0), Sym('>'), Ref(1)], [Sym('('), Ref(0), Sym('>'), Ref(1), Sym(')')]])
    ensures Admissible([Ref(5)], [[Sym('P')], [Sym('Q')], [Ref(0), Sym('>'), Ref(1)], [Sym('('), Ref(0), Sym('>'), Ref(1), Sym(')')], [Ref(0), Sym('>'), Ref(3)], [Sym('('), Ref(0), Sym('>'), Ref(3), Sym(')')]])
    ensures Sweep(Groups, [Sym('('), Ref(0), Sym('>'), Ref(3), Sym(')')], [[Sym('P')], [Sym('Q')], [Ref(0), Sym('>'), Ref(1)], [Sym('('), Ref(0), Sym('>'), Ref(1), Sym(')')]]) == Sweep(Groups, [Ref(5)], [[Sym('P')], [Sym('Q')], [Ref(0), Sym('>'), Ref(1)], [Sym('('), Ref(0), Sym('>'), Ref(1), Sym(')')], [Ref(0), Sym('>'), Ref(3)], [Sym('('), Ref(0), Sym('>'), Ref(3), Sym(')')]])
  {
    var ts, els, ts', els' := [Sym('('), Ref(0), Sym('>'), Ref(3), Sym(')')], [[Sym('P')], [Sym('Q')], [Ref(0), Sym('>'), Ref(1)], [Sym('('), Ref(0), Sym('>'), Ref(1), Sym(')')]], [Ref(5)], [[Sym('P')], [Sym('Q')], [Ref(0), Sym('>'), Ref(1)], [Sym('('), Ref(0), Sym('>'), Ref(1), Sym(')')], [Ref(0), Sym('>'), Ref(3)], [Sym('('), Ref(0), Sym('>'), Ref(3), Sym(')')]];
    WrappedNestedStep6Found();
    WrappedNestedStep6Substitution();
    SweepBy(Groups, ts, els, 0, 5, ts', els');
  }

  /** `(P>(P>Q))`, rule 0 (propositions): 3 substitutions. */
  lemma WrappedNestedAtoms()
    requires Admissible([Sym('('), Sym('P'), Sym('>'), Sym('('), Sym('P'), Sym('>'), Sym('Q'), Sym(')'), Sym(')')], NoElements)
    ensures Admissible([Sym('('), Ref(0), Sym('>'), Sym('('), Ref(0), Sym('>'), Ref(1), Sym(')'), Sym(')')], [[Sym('P')], [Sym('Q')]])
    ensures Sweep(Atoms, [Sym('('), Sym('P'), Sym('>'), Sym('('), Sym('P'), Sym('>'), Sym('Q'), Sym(')'), Sym(')')], NoElements) == Success(Flat([Sym('('), Ref(0), Sym('>'), Sym('('), Ref(0), Sym('>'), Ref(1), Sym(')'), Sym(')')], [[Sym('P')], [Sym('Q')]]))
  {
    var ts, els := [Sym('('), Ref(0), Sym('>'), Sym('('), Ref(0), Sym('>'), Ref(1), Sym(')'), Sym(')')], [[Sym('P')], [Sym('Q')]];
    WrappedNestedStep1();
    WrappedNestedStep2();
    WrappedNestedStep3();
    WrappedNestedDone();
    SweepStops(Atoms, ts, els);
  }

  /** `(P>(P>Q))`, rule 1 (groups): 2 substitutions. */
  lemma WrappedNestedGroups()
    requires Admissible([Sym('('), Ref(0), Sym('>'), Sym('('), Ref(0), Sym('>'), Ref(1), Sym(')'), Sym(')')], [[Sym('P')], [Sym('Q')]])
    ensures Admissible([Ref(5)], [[Sym('P')], [Sym('Q')], [Ref(0), Sym('>'), Ref(1)], [Sym('('), Ref(0), Sym('>'), Ref(1), Sym(')')], [Ref(0), Sym('>'), Ref(3)], [Sym('('), Ref(0), Sym('>'), Ref(3), Sym(')')]])
    ensures Sweep(Groups, [Sym('('), Ref(0), Sym('>'), Sym('('), Ref(0), Sym('>'), Ref(1), Sym(')'), Sym(')')], [[Sym('P')], [Sym('Q')]]) == Success(Flat([Ref(5)], [[Sym('P')], [Sym('Q')], [Ref(0), Sym('>'), Ref(1)], [Sym('('), Ref(0), Sym('>'), Ref(1), Sym(')')], [Ref(0), Sym('>'), Ref(3)], [Sym('('), Ref(0), Sym('>'), Ref(3), Sym(')')]]))
  {
    var ts, els := [Ref(5)], [[Sym('P')], [Sym('Q')], [Ref(0), Sym('>'), Ref(1)], [Sym('('), Ref(0), Sym('>'), Ref(1), Sym(')')], [Ref(0), Sym('>'), Ref(3)], [Sym('('), Ref(0), Sym('>'), Ref(3), Sym(')')]];
    WrappedNestedStep4();
    WrappedNestedStep6();
    WrappedNestedDone();
    SweepStops(Groups, ts, els);
  }

  /** `(P>(P>Q))`, rule 2 (negations): nothing matches. */
  lemma WrappedNestedNegations()
    requires Admissible([Ref(5)], [[Sym('P')], [Sym('Q')], [Ref(0), Sym('>'), Ref(1)], [Sym('('), Ref(0), Sym('>'), Ref(1), Sym(')')], [Ref(0), Sym('>'), Ref(3)], [Sym('('), Ref(0), Sym('>'), Ref(3), Sym(')')]])
    ensures Admissible([Ref(5)], [[Sym('P')], [Sym('Q')], [Ref(0), Sym('>'), Ref(1)], [Sym('('), Ref(0), Sym('>'), Ref(1), Sym(')')], [Ref(0), Sym('>'), Ref(3)], [Sym('('), Ref(0), Sym('>'), Ref(3), Sym(')')]])
    ensures Sweep(Negations, [Ref(5)], [[Sym('P')], [Sym('Q')], [Ref(0), Sym('>'), Ref(1)], [Sym('('), Ref(0), Sym('>'), Ref(1), Sym(')')], [Ref(0), Sym('>'), Ref(3)], [Sym('('), Ref(0), Sym('>'), Ref(3), Sym(')')]]) == Success(Flat([Ref(5)], [[Sym('P')], [Sym('Q')], [Ref(0), Sym('>'), Ref(1)], [Sym('('), Ref(0), Sym('>'), Ref(1), Sym(')')], [Ref(0), Sym('>'), Ref(3)], [Sym('('), Ref(0), Sym('>'), Ref(3), Sym(')')]]))
  {
    var ts, els := [Ref(5)], [[Sym('P')], [Sym('Q')], [Ref(0), Sym('>'), Ref(1)], [Sym('('), Ref(0), Sym('>'), Ref(1), Sym(')')], [Ref(0), Sym('>'), Ref(3)], [Sym('('), Ref(0), Sym('>'), Ref(3), Sym(')')]];
    WrappedNestedDone();
    SweepStops(Negations, ts, els);
  }

  /** `(P>(P>Q))`, rule 3 (conjunctions and disjunctions): nothing matches. */
  lemma WrappedNestedJunctions()
    requires Admissible([Ref(5)], [[Sym('P')], [Sym('Q')], [Ref(0), Sym('>'), Ref(1)], [Sym('('), Ref(0), Sym('>'), Ref(1), Sym(')')], [Ref(0), Sym('>'), Ref(3)], [Sym('('), Ref(0), Sym('>'), Ref(3), Sym(')')]])
    ensures Admissible([Ref(5)], [[Sym('P')], [Sym('Q')], [Ref(0), Sym('>'), Ref(1)], [Sym('('), Ref(0), Sym('>'), Ref(1), Sym(')')], [Ref(0), Sym('>'), Ref(3)], [Sym('('), Ref(0), Sym('>'), Ref(3), Sym(')')]])
    ensures Sweep(Junctions, [Ref(5)], [[Sym('P')], [Sym('Q')], [Ref(0), Sym('>'), Ref(1)], [Sym('('), Ref(0), Sym('>'), Ref(1), Sym(')')], [Ref(0), Sym('>'), Ref(3)], [Sym('('), Ref(0), Sym('>'), Ref(3), Sym(')')]]) == Success(Flat([Ref(5)], [[Sym('P')], [Sym('Q')], [Ref(0), Sym('>'), Ref(1)], [Sym('('), Ref(0), Sym('>'), Ref(1), Sym(')')], [Ref(0), Sym('>'), Ref(3)], [Sym('('), Ref(0), Sym('>'), Ref(3), Sym(')')]]))
  {
    var ts, els := [Ref(5)], [[Sym('P')], [Sym('Q')], [Ref(0), Sym('>'), Ref(1)], [Sym('('), Ref(0), Sym('>'), Ref(1), Sym(')')], [Ref(0), Sym('>'), Ref(3)], [Sym('('), Ref(0), Sym('>'), Ref(3), Sym(')')]];
    WrappedNestedDone();
    SweepStops(Junctions, ts, els);
  }

  /** `(P>(P>Q))`, rule 4 (implications): nothing matches. */
  lemma WrappedNestedImplications()
    requires Admissible([Ref(5)], [[Sym('P')], [Sym('Q')], [Ref(0), Sym('>'), Ref(1)], [Sym('('), Ref(0), Sym('>'), Ref(1), Sym(')')], [Ref(0), Sym('>'), Ref(3)], [Sym('('), Ref(0), Sym('>'), Ref(3), Sym(')')]])
    ensures Admissible([Ref(5)], [[Sym('P')], [Sym('Q')], [Ref(0), Sym('>'), Ref(1)], [Sym('('), Ref(0), Sym('>'), Ref(1), Sym(')')], [Ref(0), Sym('>'), Ref(3)], [Sym('('), Ref(0), Sym('>'), Ref(3), Sym(')')]])
    ensures Sweep(Implications, [Ref(5)], [[Sym('P')], [Sym('Q')], [Ref(0), Sym('>'), Ref(1)], [Sym('('), Ref(0), Sym('>'), Ref(1), Sym(')')], [Ref(0), Sym('>'), Ref(3)], [Sym('('), Ref(0), Sym('>'), Ref(3), Sym(')')]]) == Success(Flat([Ref(5)], [[Sym('P')], [Sym('Q')], [Ref(0), Sym('>'), Ref(1)], [Sym('('), Ref(0), Sym('>'), Ref(1), Sym(')')], [Ref(0), Sym('>'), Ref(3)], [Sym('('), Ref(0), Sym('>'), Ref(3), Sym(')')]]))
  {
    var ts, els := [Ref(5)], [[Sym('P')], [Sym('Q')], [Ref(0), Sym('>'), Ref(1)], [Sym('('), Ref(0), Sym('>'), Ref(1), Sym(')')], [Ref(0), Sym('>'), Ref(3)], [Sym('('), Ref(0), Sym('>'), Ref(3), Sym(')')]];
    WrappedNestedDone();
    SweepStops(Implications, ts, els);
  }

  /** `(P>(P>Q))`: once each rule has been swept, nothing is left for it to match. */
  lemma WrappedNestedDone()
    ensures FirstMatch(Atoms, [Sym('('), Ref(0), Sym('>'), Sym('('), Ref(0), Sym('>'), Ref(1), Sym(')'), Sym(')')], 0) == None
    ensures FirstMatch(Groups, [Ref(5)], 0) == None
    ensures FirstMatch(Negations, [Ref(5)], 0) == None
    ensures FirstMatch(Junctions, [Ref(5)], 0) == None
    ensures FirstMatch(Implications, [Ref(5)], 0) == None
  {
  }

  /** `(P>(P>Q))` flattens to element 5. */
  lemma WrappedNestedFlattens()
    ensures Flatten([Sym('('), Sym('P'), Sym('>'), Sym('('), Sym('P'), Sym('>'), Sym('Q'), Sym(')'), Sym(')')], NoElements) == Success(Analysis([[Sym('P')], [Sym('Q')], [Ref(0), Sym('>'), Ref(1)], [Sym('('), Ref(0), Sym('>'), Ref(1), Sym(')')], [Ref(0), Sym('>'), Ref(3)], [Sym('('), Ref(0), Sym('>'), Ref(3), Sym(')')]], 5))
  {
    var ts, els := [Sym('('), Sym('P'), Sym('>'), Sym('('), Sym('P'), Sym('>'), Sym('Q'), Sym(')'), Sym(')')], NoElements;
    var f1 := Flat([Sym('('), Ref(0), Sym('>'), Sym('('), Ref(0), Sym('>'), Ref(1), Sym(')'), Sym(')')], [[Sym('P')], [Sym('Q')]]);
    var f2 := Flat([Ref(5)], [[Sym('P')], [Sym('Q')], [Ref(0), Sym('>'), Ref(1)], [Sym('('), Ref(0), Sym('>'), Ref(1), Sym(')')], [Ref(0), Sym('>'), Ref(3)], [Sym('('), Ref(0), Sym('>'), Ref(3), Sym(')')]]);
    var f3 := Flat([Ref(5)], [[Sym('P')], [Sym('Q')], [Ref(0), Sym('>'), Ref(1)], [Sym('('), Ref(0), Sym('>'), Ref(1), Sym(')')], [Ref(0), Sym('>'), Ref(3)], [Sym('('), Ref(0), Sym('>'), Ref(3), Sym(')')]]);
    var f4 := Flat([Ref(5)], [[Sym('P')], [Sym('Q')], [Ref(0), Sym('>'), Ref(1)], [Sym('('), Ref(0), Sym('>'), Ref(1), Sym(')')], [Ref(0), Sym('>'), Ref(3)], [Sym('('), Ref(0), Sym('>'), Ref(3), Sym(')')]]);
    var f5 := Flat([Ref(5)], [[Sym('P')], [Sym('Q')], [Ref(0), Sym('>'), Ref(1)], [Sym('('), Ref(0), Sym('>'), Ref(1), Sym(')')], [Ref(0), Sym('>'), Ref(3)], [Sym('('), Ref(0), Sym('>'), Ref(3), Sym(')')]]);
    WrappedNestedAtoms();
    WrappedNestedGroups();
    WrappedNestedNegations();
    WrappedNestedJunctions();
    WrappedNestedImplications();
    FlattenOfRules(ts, els, f1, f2, f3, f4, f5, 5);
  }


  // ---------------------------------------------------------------------
  // `P>((P>Q))`
  // ---------------------------------------------------------------------

  /** `P>((P>Q))`, implications: the leftmost match is `0>1`, at 0; it is new and becomes element 2. */
  lemma DoubledGroupStep5Found()
    ensures FirstMatch(Implications, [Ref(0), Sym('>'), Ref(1)], 0) == Some(0)
    ensures MatchLength(Implications, [Ref(0), Sym('>'), Ref(1)], 0) == 3
    ensures [Ref(2)] == [Ref(0), Sym('>'), Ref(1)][..0] + [Ref(2)] + [Ref(0), Sym('>'), Ref(1)][3..]
    ensures [Ref(0), Sym('>'), Ref(1)][0..3] == [Ref(0), Sym('>'), Ref(1)]
    ensures Intern([[Sym('P')], [Sym('Q')]], [Ref(0), Sym('>'), Ref(1)]).0 == [[Sym('P')], [Sym('Q')], [Ref(0), Sym('>'), Ref(1)]]
    ensures Intern([[Sym('P')], [Sym('Q')]], [Ref(0), Sym('>'), Ref(1)]).1 == 2
  {
    var els, e := [[Sym('P')], [Sym('Q')]], [Ref(0), Sym('>'), Ref(1)];
    assert |els[0]| != |e|;
    assert |els[1]| != |e|;
  }

  /** `P>((P>Q))`, implications: `0>1` is new and becomes element 2. */
  lemma DoubledGroupStep5()
    requires Admissible([Ref(0), Sym('>'), Ref(1)], [[Sym('P')], [Sym('Q')]])
    ensures Admissible([Ref(2)], [[Sym('P')], [Sym('Q')], [Ref(0), Sym('>'), Ref(1)]])
    ensures Sweep(Implications, [Ref(0), Sym('>'), Ref(1)], [[Sym('P')], [Sym('Q')]]) == Sweep(Implications, [Ref(2)], [[Sym('P')], [Sym('Q')], [Ref(0), Sym('>'), Ref(1)]])
  {
    var ts, els, ts', els' := [Ref(0), Sym('>'), Ref(1)], [[Sym('P')], [Sym('Q')]], [Ref(2)], [[Sym('P')], [Sym('Q')], [Ref(0), Sym('>'), Ref(1)]];
    DoubledGroupStep5Found();
    SweepStep(Implications, ts, els, 0, 3, 2, ts', els');
  }

  /** In `P>((P>Q))`, the content `0>1` of a group, rule 0 (propositions): nothing matches. */
  lemma DoubledGroupGroup4Atoms()
    requires Admissible([Ref(0), Sym('>'), Ref(1)], [[Sym('P')], [Sym('Q')]])
    ensures Admissible([Ref(0), Sym('>'), Ref(1)], [[Sym('P')], [Sym('Q')]])
    ensures Sweep(Atoms, [Ref(0), Sym('>'), Ref(1)], [[Sym('P')], [Sym('Q')]]) == Success(Flat([Ref(0), Sym('>'), Ref(1)], [[Sym('P')], [Sym('Q')]]))
  {
    var ts, els := [Ref(0), Sym('>'), Ref(1)], [[Sym('P')], [Sym('Q')]];
    DoubledGroupGroup4Done();
    SweepStops(Atoms, ts, els);
  }

  /** In `P>((P>Q))`, the content `0>1` of a group, rule 1 (groups): nothing matches. */
  lemma DoubledGroupGroup4Groups()
    requires Admissible([Ref(0), Sym('>'), Ref(1)], [[Sym('P')], [Sym('Q')]])
    ensures Admissible([Ref(0), Sym('>'), Ref(1)], [[Sym('P')], [Sym('Q')]])
    ensures Sweep(Groups, [Ref(0), Sym('>'), Ref(1)], [[Sym('P')], [Sym('Q')]]) == Success(Flat([Ref(0), Sym('>'), Ref(1)], [[Sym('P')], [Sym('Q')]]))
  {
    var ts, els := [Ref(0), Sym('>'), Ref(1)], [[Sym('P')], [Sym('Q')]];
    DoubledGroupGroup4Done();
    SweepStops(Groups, ts, els);
  }

  /** In `P>((P>Q))`, the content `0>1` of a group, rule 2 (negations): nothing matches. */
  lemma DoubledGroupGroup4Negations()
    requires Admissible([Ref(0), Sym('>'), Ref(1)], [[Sym('P')], [Sym('Q')]])
    ensures Admissible([Ref(0), Sym('>'), Ref(1)], [[Sym('P')], [Sym('Q')]])
    ensures Sweep(Negations, [Ref(0), Sym('>'), Ref(1)], [[Sym('P')], [Sym('Q')]]) == Success(Flat([Ref(0), Sym('>'), Ref(1)], [[Sym('P')], [Sym('Q')]]))
  {
    var ts, els := [Ref(0), Sym('>'), Ref(1)], [[Sym('P')], [Sym('Q')]];
    DoubledGroupGroup4Done();
    SweepStops(Negations, ts, els);
  }

  /** In `P>((P>Q))`, the content `0>1` of a group, rule 3 (conjunctions and disjunctions): nothing matches. */
  lemma DoubledGroupGroup4Junctions()
    requires Admissible([Ref(0), Sym('>'), Ref(1)], [[Sym('P')], [Sym('Q')]])
    ensures Admissible([Ref(0), Sym('>'), Ref(1)], [[Sym('P')], [Sym('Q')]])
    ensures Sweep(Junctions, [Ref(0), Sym('>'), Ref(1)], [[Sym('P')], [Sym('Q')]]) == Success(Flat([Ref(0), Sym('>'), Ref(1)], [[Sym('P')], [Sym('Q')]]))
  {
    var ts, els := [Ref(0), Sym('>'), Ref(1)], [[Sym('P')], [Sym('Q')]];
    DoubledGroupGroup4Done();
    SweepStops(Junctions, ts, els);
  }

  /** In `P>((P>Q))`, the content `0>1` of a group, rule 4 (implications): 1 substitution. */
  lemma DoubledGroupGroup4Implications()
    requires Admissible([Ref(0), Sym('>'), Ref(1)], [[Sym('P')], [Sym('Q')]])
    ensures Admissible([Ref(2)], [[Sym('P')], [Sym('Q')], [Ref(0), Sym('>'), Ref(1)]])
    ensures Sweep(Implications, [Ref(0), Sym('>'), Ref(1)], [[Sym('P')], [Sym('Q')]]) == Success(Flat([Ref(2)], [[Sym('P')], [Sym('Q')], [Ref(0), Sym('>'), Ref(1)]]))
  {
    var ts, els := [Ref(2)], [[Sym('P')], [Sym('Q')], [Ref(0), Sym('>'), Ref(1)]];
    DoubledGroupStep5();
    DoubledGroupGroup4Done();
    SweepStops(Implications, ts, els);
  }

  /** In `P>((P>Q))`, the content `0>1` of a group: once each rule has been swept, nothing is left for it to match. */
  lemma DoubledGroupGroup4Done()
    ensures FirstMatch(Atoms, [Ref(0), Sym('>'), Ref(1)], 0) == None
    ensures FirstMatch(Groups, [Ref(0), Sym('>'), Ref(1)], 0) == None
    ensures FirstMatch(Negations, [Ref(0), Sym('>'), Ref(1)], 0) == None
    ensures FirstMatch(Junctions, [Ref(0), Sym('>'), Ref(1)], 0) == None
    ensures FirstMatch(Implications, [Ref(2)], 0) == None
  {
  }

  /** In `P>((P>Q))`, the content `0>1` of a group flattens to element 2. */
  lemma DoubledGroupGroup4Flattens()
    requires Admissible([Ref(0), Sym('>'), Ref(1)], [[Sym('P')], [Sym('Q')]])
    ensures Flatten([Ref(0), Sym('>'), Ref(1)], [[Sym('P')], [Sym('Q')]]) == Success(Analysis([[Sym('P')], [Sym('Q')], [Ref(0), Sym('>'), Ref(1)]], 2))
  {
    var ts, els := [Ref(0), Sym('>'), Ref(1)], [[Sym('P')], [Sym('Q')]];
    var f1 := Flat([Ref(0), Sym('>'), Ref(1)], [[Sym('P')], [Sym('Q')]]);
    var f2 := Flat([Ref(0), Sym('>'), Ref(1)], [[Sym('P')], [Sym('Q')]]);
    var f3 := Flat([Ref(0), Sym('>'), Ref(1)], [[Sym('P')], [Sym('Q')]]);
    var f4 := Flat([Ref(0), Sym('>'), Ref(1)], [[Sym('P')], [Sym('Q')]]);
    var f5 := Flat([Ref(2)], [[Sym('P')], [Sym('Q')], [Ref(0), Sym('>'), Ref(1)]]);
    DoubledGroupGroup4Atoms();
    DoubledGroupGroup4Groups();
    DoubledGroupGroup4Negations();
    DoubledGroupGroup4Junctions();
    DoubledGroupGroup4Implications();
    FlattenOfRules(ts, els, f1, f2, f3, f4, f5, 2);
  }

  /** In `P>((P>Q))`, the content `3` of a group, rule 0 (propositions): nothing matches. */
  lemma DoubledGroupGroup6Atoms()
    requires Admissible([Ref(3)], [[Sym('P')], [Sym('Q')], [Ref(0), Sym('>'), Ref(1)], [Sym('('), Ref(0), Sym('>'), Ref(1), Sym(')')]])
    ensures Admissible([Ref(3)], [[Sym('P')], [Sym('Q')], [Ref(0), Sym('>'), Ref(1)], [Sym('('), Ref(0), Sym('>'), Ref(1), Sym(')')]])
    ensures Sweep(Atoms, [Ref(3)], [[Sym('P')], [Sym('Q')], [Ref(0), Sym('>'), Ref(1)], [Sym('('), Ref(0), Sym('>'), Ref(1), Sym(')')]]) == Success(Flat([Ref(3)], [[Sym('P')], [Sym('Q')], [Ref(0), Sym('>'), Ref(1)], [Sym('('), Ref(0), Sym('>'), Ref(1), Sym(')')]]))
  {
    var ts, els := [Ref(3)], [[Sym('P')], [Sym('Q')], [Ref(0), Sym('>'), Ref(1)], [Sym('('), Ref(0), Sym('>'), Ref(1), Sym(')')]];
    DoubledGroupGroup6Done();
    SweepStops(Atoms, ts, els);
  }

  /** In `P>((P>Q))`, the content `3` of a group, rule 1 (groups): nothing matches. */
  lemma DoubledGroupGroup6Groups()
    requires Admissible([Ref(3)], [[Sym('P')], [Sym('Q')], [Ref(0), Sym('>'), Ref(1)], [Sym('('), Ref(0), Sym('>'), Ref(1), Sym(')')]])
    ensures Admissible([Ref(3)], [[Sym('P')], [Sym('Q')], [Ref(0), Sym('>'), Ref(1)], [Sym('('), Ref(0), Sym('>'), Ref(1), Sym(')')]])
    ensures Sweep(Groups, [Ref(3)], [[Sym('P')], [Sym('Q')], [Ref(0), Sym('>'), Ref(1)], [Sym('('), Ref(0), Sym('>'), Ref(1), Sym(')')]]) == Success(Flat([Ref(3)], [[Sym('P')], [Sym('Q')], [Ref(0), Sym('>'), Ref(1)], [Sym('('), Ref(0), Sym('>'), Ref(1), Sym(')')]]))
  {
    var ts, els := [Ref(3)], [[Sym('P')], [Sym('Q')], [Ref(0), Sym('>'), Ref(1)], [Sym('('), Ref(0), Sym('>'), Ref(1), Sym(')')]];
    DoubledGroupGroup6Done();
    SweepStops(Groups, ts, els);
  }

  /** In `P>((P>Q))`, the content `3` of a group, rule 2 (negations): nothing matches. */
  lemma DoubledGroupGroup6Negations()
    requires Admissible([Ref(3)], [[Sym('P')], [Sym('Q')], [Ref(0), Sym('>'), Ref(1)], [Sym('('), Ref(0), Sym('>'), Ref(1), Sym(')')]])
    ensures Admissible([Ref(3)], [[Sym('P')], [Sym('Q')], [Ref(0), Sym('>'), Ref(1)], [Sym('('), Ref(0), Sym('>'), Ref(1), Sym(')')]])
    ensures Sweep(Negations, [Ref(3)], [[Sym('P')], [Sym('Q')], [Ref(0), Sym('>'), Ref(1)], [Sym('('), Ref(0), Sym('>'), Ref(1), Sym(')')]]) == Success(Flat([Ref(3)], [[Sym('P')], [Sym('Q')], [Ref(0), Sym('>'), Ref(1)], [Sym('('), Ref(0), Sym('>'), Ref(1), Sym(')')]]))
  {
    var ts, els := [Ref(3)], [[Sym('P')], [Sym('Q')], [Ref(0), Sym('>'), Ref(1)], [Sym('('), Ref(0), Sym('>'), Ref(1), Sym(')')]];
    DoubledGroupGroup6Done();
    SweepStops(Negations, ts, els);
  }

  /** In `P>((P>Q))`, the content `3` of a group, rule 3 (conjunctions and disjunctions): nothing matches. */
  lemma DoubledGroupGroup6Junctions()
    requires Admissible([Ref(3)], [[Sym('P')], [Sym('Q')], [Ref(0), Sym('>'), Ref(1)], [Sym('('), Ref(0), Sym('>'), Ref(1), Sym(')')]])
    ensures Admissible([Ref(3)], [[Sym('P')], [Sym('Q')], [Ref(0), Sym('>'), Ref(1)], [Sym('('), Ref(0), Sym('>'), Ref(1), Sym(')')]])
    ensures Sweep(Junctions, [Ref(3)], [[Sym('P')], [Sym('Q')], [Ref(0), Sym('>'), Ref(1)], [Sym('('), Ref(0), Sym('>'), Ref(1), Sym(')')]]) == Success(Flat([Ref(3)], [[Sym('P')], [Sym('Q')], [Ref(0), Sym('>'), Ref(1)], [Sym('('), Ref(0), Sym('>'), Ref(1), Sym(')')]]))
  {
    var ts, els := [Ref(3)], [[Sym('P')], [Sym('Q')], [Ref(0), Sym('>'), Ref(1)], [Sym('('), Ref(0), Sym('>'), Ref(1), Sym(')')]];
    DoubledGroupGroup6Done();
    SweepStops(Junctions, ts, els);
  }

  /** In `P>((P>Q))`, the content `3` of a group, rule 4 (implications): nothing matches. */
  lemma DoubledGroupGroup6Implications()
    requires Admissible([Ref(3)], [[Sym('P')], [Sym('Q')], [Ref(0), Sym('>'), Ref(1)], [Sym('('), Ref(0), Sym('>'), Ref(1), Sym(')')]])
    ensures Admissible([Ref(3)], [[Sym('P')], [Sym('Q')], [Ref(0), Sym('>'), Ref(1)], [Sym('('), Ref(0), Sym('>'), Ref(1), Sym(')')]])
    ensures Sweep(Implications, [Ref(3)], [[Sym('P')], [Sym('Q')], [Ref(0), Sym('>'), Ref(1)], [Sym('('), Ref(0), Sym('>'), Ref(1), Sym(')')]]) == Success(Flat([Ref(3)], [[Sym('P')], [Sym('Q')], [Ref(0), Sym('>'), Ref(1)], [Sym('('), Ref(0), Sym('>'), Ref(1), Sym(')')]]))
  {
    var ts, els := [Ref(3)], [[Sym('P')], [Sym('Q')], [Ref(0), Sym('>'), Ref(1)], [Sym('('), Ref(0), Sym('>'), Ref(1), Sym(')')]];
    DoubledGroupGroup6Done();
    SweepStops(Implications, ts, els);
  }

  /** In `P>((P>Q))`, the content `3` of a group: once each rule has been swept, nothing is left for it to match. */
  lemma DoubledGroupGroup6Done()
    ensures FirstMatch(Atoms, [Ref(3)], 0) == None
    ensures FirstMatch(Groups, [Ref(3)], 0) == None
    ensures FirstMatch(Negations, [Ref(3)], 0) == None
    ensures FirstMatch(Junctions, [Ref(3)], 0) == None
    ensures FirstMatch(Implications, [Ref(3)], 0) == None
  {
  }

  /** In `P>((P>Q))`, the content `3` of a group flattens to element 3. */
  lemma DoubledGroupGroup6Flattens()
    requires Admissible([Ref(3)], [[Sym('P')], [Sym('Q')], [Ref(0), Sym('>'), Ref(1)], [Sym('('), Ref(0), Sym('>'), Ref(1), Sym(')')]])
    ensures Flatten([Ref(3)], [[Sym('P')], [Sym('Q')], [Ref(0), Sym('>'), Ref(1)], [Sym('('), Ref(0), Sym('>'), Ref(1), Sym(')')]]) == Success(Analysis([[Sym('P')], [Sym('Q')], [Ref(0), Sym('>'), Ref(1)], [Sym('('), Ref(0), Sym('>'), Ref(1), Sym(')')]], 3))
  {
    var ts, els := [Ref(3)], [[Sym('P')], [Sym('Q')], [Ref(0), Sym('>'), Ref(1)], [Sym('('), Ref(0), Sym('>'), Ref(1), Sym(')')]];
    var f1 := Flat([Ref(3)], [[Sym('P')], [Sym('Q')], [Ref(0), Sym('>'), Ref(1)], [Sym('('), Ref(0), Sym('>'), Ref(1), Sym(')')]]);
    var f2 := Flat([Ref(3)], [[Sym('P')], [Sym('Q')], [Ref(0), Sym('>'), Ref(1)], [Sym('('), Ref(0), Sym('>'), Ref(1), Sym(')')]]);
    var f3 := Flat([Ref(3)], [[Sym('P')], [Sym('Q')], [Ref(0), Sym('>'), Ref(1)], [Sym('('), Ref(0), Sym('>'), Ref(1), Sym(')')]]);
    var f4 := Flat([Ref(3)], [[Sym('P')], [Sym('Q')], [Ref(0), Sym('>'), Ref(1)], [Sym('('), Ref(0), Sym('>'), Ref(1), Sym(')')]]);
    var f5 := Flat([Ref(3)], [[Sym('P')], [Sym('Q')], [Ref(0), Sym('>'), Ref(1)], [Sym('('), Ref(0), Sym('>'), Ref(1), Sym(')')]]);
    DoubledGroupGroup6Atoms();
    DoubledGroupGroup6Groups();
    DoubledGroupGroup6Negations();
    DoubledGroupGroup6Junctions();
    DoubledGroupGroup6Implications();
    FlattenOfRules(ts, els, f1, f2, f3, f4, f5, 3);
  }

  /** `P>((P>Q))`, propositions: the leftmost match is `P`, at 0; it is new and becomes element 0. */
  lemma DoubledGroupStep1Found()
    ensures FirstMatch(Atoms, [Sym('P'), Sym('>'), Sym('('), Sym('('), Sym('P'), Sym('>'), Sym('Q'), Sym(')'), Sym(')')], 0) == Some(0)
    ensures MatchLength(Atoms, [Sym('P'), Sym('>'), Sym('('), Sym('('), Sym('P'), Sym('>'), Sym('Q'), Sym(')'), Sym(')')], 0) == 1
    ensures [Ref(0), Sym('>'), Sym('('), Sym('('), Sym('P'), Sym('>'), Sym('Q'), Sym(')'), Sym(')')] == [Sym('P'), Sym('>'), Sym('('), Sym('('), Sym('P'), Sym('>'), Sym('Q'), Sym(')'), Sym(')')][..0] + [Ref(0)] + [Sym('P'), Sym('>'), Sym('('), Sym('('), Sym('P'), Sym('>'), Sym('Q'), Sym(')'), Sym(')')][1..]
    ensures [Sym('P'), Sym('>'), Sym('('), Sym('('), Sym('P'), Sym('>'), Sym('Q'), Sym(')'), Sym(')')][0..1] == [Sym('P')]
    ensures Intern(NoElements, [Sym('P')]).0 == [[Sym('P')]]
    ensures Intern(NoElements, [Sym('P')]).1 == 0
  {
  }

  /** `P>((P>Q))`, propositions: `P` is new and becomes element 0. */
  lemma DoubledGroupStep1()
    requires Admissible([Sym('P'), Sym('>'), Sym('('), Sym('('), Sym('P'), Sym('>'), Sym('Q'), Sym(')'), Sym(')')], NoElements)
    ensures Admissible([Ref(0), Sym('>'), Sym('('), Sym('('), Sym('P'), Sym('>'), Sym('Q'), Sym(')'), Sym(')')], [[Sym('P')]])
    ensures Sweep(Atoms, [Sym('P'), Sym('>'), Sym('('), Sym('('), Sym('P'), Sym('>'), Sym('Q'), Sym(')'), Sym(')')], NoElements) == Sweep(Atoms, [Ref(0), Sym('>'), Sym('('), Sym('('), Sym('P'), Sym('>'), Sym('Q'), Sym(')'), Sym(')')], [[Sym('P')]])
  {
    var ts, els, ts', els' := [Sym('P'), Sym('>'), Sym('('), Sym('('), Sym('P'), Sym('>'), Sym('Q'), Sym(')'), Sym(')')], NoElements, [Ref(0), Sym('>'), Sym('('), Sym('('), Sym('P'), Sym('>'), Sym('Q'), Sym(')'), Sym(')')], [[Sym('P')]];
    DoubledGroupStep1Found();
    SweepStep(Atoms, ts, els, 0, 1, 0, ts', els');
  }

  /** `P>((P>Q))`, propositions: the leftmost match is `P`, at 4; it is element 0 already. */
  lemma DoubledGroupStep2Found()
    ensures FirstMatch(Atoms, [Ref(0), Sym('>'), Sym('('), Sym('('), Sym('P'), Sym('>'), Sym('Q'), Sym(')'), Sym(')')], 0) == Some(4)
    ensures MatchLength(Atoms, [Ref(0), Sym('>'), Sym('('), Sym('('), Sym('P'), Sym('>'), Sym('Q'), Sym(')'), Sym(')')], 4) == 1
    ensures [Ref(0), Sym('>'), Sym('('), Sym('('), Ref(0), Sym('>'), Sym('Q'), Sym(')'), Sym(')')] == [Ref(0), Sym('>'), Sym('('), Sym('('), Sym('P'), Sym('>'), Sym('Q'), Sym(')'), Sym(')')][..4] + [Ref(0)] + [Ref(0), Sym('>'), Sym('('), Sym('('), Sym('P'), Sym('>'), Sym('Q'), Sym(')'), Sym(')')][5..]
    ensures [Ref(0), Sym('>'), Sym('('), Sym('('), Sym('P'), Sym('>'), Sym('Q'), Sym(')'), Sym(')')][4..5] == [Sym('P')]
    ensures Intern([[Sym('P')]], [Sym('P')]).0 == [[Sym('P')]]
    ensures Intern([[Sym('P')]], [Sym('P')]).1 == 0
  {
    var els, e := [[Sym('P')]], [Sym('P')];
  }

  /** `P>((P>Q))`, propositions: `P` is element 0 already. */
  lemma DoubledGroupStep2()
    requires Admissible([Ref(0), Sym('>'), Sym('('), Sym('('), Sym('P'), Sym('>'), Sym('Q'), Sym(')'), Sym(')')], [[Sym('P')]])
    ensures Admissible([Ref(0), Sym('>'), Sym('('), Sym('('), Ref(0), Sym('>'), Sym('Q'), Sym(')'), Sym(')')], [[Sym('P')]])
    ensures Sweep(Atoms, [Ref(0), Sym('>'), Sym('('), Sym('('), Sym('P'), Sym('>'), Sym('Q'), Sym(')'), Sym(')')], [[Sym('P')]]) == Sweep(Atoms, [Ref(0), Sym('>'), Sym('('), Sym('('), Ref(0), Sym('>'), Sym('Q'), Sym(')'), Sym(')')], [[Sym('P')]])
  {
    var ts, els, ts', els' := [Ref(0), Sym('>'), Sym('('), Sym('('), Sym('P'), Sym('>'), Sym('Q'), Sym(')'), Sym(')')], [[Sym('P')]], [Ref(0), Sym('>'), Sym('('), Sym('('), Ref(0), Sym('>'), Sym('Q'), Sym(')'), Sym(')')], [[Sym('P')]];
    DoubledGroupStep2Found();
    SweepStep(Atoms, ts, els, 4, 1, 0, ts', els');
  }

  /** `P>((P>Q))`, propositions: the leftmost match is `Q`, at 6; it is new and becomes element 1. */
  lemma DoubledGroupStep3Found()
    ensures FirstMatch(Atoms, [Ref(0), Sym('>'), Sym('('), Sym('('), Ref(0), Sym('>'), Sym('Q'), Sym(')'), Sym(')')], 0) == Some(6)
    ensures MatchLength(Atoms, [Ref(0), Sym('>'), Sym('('), Sym('('), Ref(0), Sym('>'), Sym('Q'), Sym(')'), Sym(')')], 6) == 1
    ensures [Ref(0), Sym('>'), Sym('('), Sym('('), Ref(0), Sym('>'), Ref(1), Sym(')'), Sym(')')] == [Ref(0), Sym('>'), Sym('('), Sym('('), Ref(0), Sym('>'), Sym('Q'), Sym(')'), Sym(')')][..6] + [Ref(1)] + [Ref(0), Sym('>'), Sym('('), Sym('('), Ref(0), Sym('>'), Sym('Q'), Sym(')'), Sym(')')][7..]
    ensures [Ref(0), Sym('>'), Sym('('), Sym('('), Ref(0), Sym('>'), Sym('Q'), Sym(')'), Sym(')')][6..7] == [Sym('Q')]
    ensures Intern([[Sym('P')]], [Sym('Q')]).0 == [[Sym('P')], [Sym('Q')]]
    ensures Intern([[Sym('P')]], [Sym('Q')]).1 == 1
  {
    var els, e := [[Sym('P')]], [Sym('Q')];
    assert els[0][0] != e[0];
  }

  /** `P>((P>Q))`, propositions: `Q` is new and becomes element 1. */
  lemma DoubledGroupStep3()
    requires Admissible([Ref(0), Sym('>'), Sym('('), Sym('('), Ref(0), Sym('>'), Sym('Q'), Sym(')'), Sym(')')], [[Sym('P')]])
    ensures Admissible([Ref(0), Sym('>'), Sym('('), Sym('('), Ref(0), Sym('>'), Ref(1), Sym(')'), Sym(')')], [[Sym('P')], [Sym('Q')]])
    ensures Sweep(Atoms, [Ref(0), Sym('>'), Sym('('), Sym('('), Ref(0), Sym('>'), Sym('Q'), Sym(')'), Sym(')')], [[Sym('P')]]) == Sweep(Atoms, [Ref(0), Sym('>'), Sym('('), Sym('('), Ref(0), Sym('>'), Ref(1), Sym(')'), Sym(')')], [[Sym('P')], [Sym('Q')]])
  {
    var ts, els, ts', els' := [Ref(0), Sym('>'), Sym('('), Sym('('), Ref(0), Sym('>'), Sym('Q'), Sym(')'), Sym(')')], [[Sym('P')]], [Ref(0), Sym('>'), Sym('('), Sym('('), Ref(0), Sym('>'), Ref(1), Sym(')'), Sym(')')], [[Sym('P')], [Sym('Q')]];
    DoubledGroupStep3Found();
    SweepStep(Atoms, ts, els, 6, 1, 1, ts', els');
  }

  /** `P>((P>Q))`, groups: the leftmost match is `(0>1)`, at 3. */
  lemma DoubledGroupStep4Found()
    ensures FirstMatch(Groups, [Ref(0), Sym('>'), Sym('('), Sym('('), Ref(0), Sym('>'), Ref(1), Sym(')'), Sym(')')], 0) == Some(3)
    ensures MatchLength(Groups, [Ref(0), Sym('>'), Sym('('), Sym('('), Ref(0), Sym('>'), Ref(1), Sym(')'), Sym(')')], 3) == 5
    ensures [Ref(0), Sym('>'), Sym('('), Ref(3), Sym(')')] == [Ref(0), Sym('>'), Sym('('), Sym('('), Ref(0), Sym('>'), Ref(1), Sym(')'), Sym(')')][..3] + [Ref(3)] + [Ref(0), Sym('>'), Sym('('), Sym('('), Ref(0), Sym('>'), Ref(1), Sym(')'), Sym(')')][8..]
    ensures [Ref(0), Sym('>'), Sym('('), Sym('('), Ref(0), Sym('>'), Ref(1), Sym(')'), Sym(')')][4..7] == [Ref(0), Sym('>'), Ref(1)]
  {
  }

  /** `P>((P>Q))`: the group element `(0>1)` is new and becomes element 3. */
  lemma DoubledGroupStep4Interned()
    ensures 2 < |[[Sym('P')], [Sym('Q')], [Ref(0), Sym('>'), Ref(1)]]| && [[Sym('P')], [Sym('Q')], [Ref(0), Sym('>'), Ref(1)]][2] == [Ref(0), Sym('>'), Ref(1)]
    ensures Intern([[Sym('P')], [Sym('Q')], [Ref(0), Sym('>'), Ref(1)]], [Sym('(')] + [Ref(0), Sym('>'), Ref(1)] + [Sym(')')]).0 == [[Sym('P')], [Sym('Q')], [Ref(0), Sym('>'), Ref(1)], [Sym('('), Ref(0), Sym('>'), Ref(1), Sym(')')]]
    ensures Intern([[Sym('P')], [Sym('Q')], [Ref(0), Sym('>'), Ref(1)]], [Sym('(')] + [Ref(0), Sym('>'), Ref(1)] + [Sym(')')]).1 == 3
  {
    assert [Sym('(')] + [Ref(0), Sym('>'), Ref(1)] + [Sym(')')] == [Sym('('), Ref(0), Sym('>'), Ref(1), Sym(')')];
    var els, e := [[Sym('P')], [Sym('Q')], [Ref(0), Sym('>'), Ref(1)]], [Sym('('), Ref(0), Sym('>'), Ref(1), Sym(')')];
    assert |els[0]| != |e|;
    assert |els[1]| != |e|;
    assert |els[2]| != |e|;
  }

  /** `P>((P>Q))`, groups: the group at 3 becomes element 3. */
  lemma DoubledGroupStep4Substitution()
    requires Admissible([Ref(0), Sym('>'), Sym('('), Sym('('), Ref(0), Sym('>'), Ref(1), Sym(')'), Sym(')')], [[Sym('P')], [Sym('Q')]])
    ensures Substitute(Groups, [Ref(0), Sym('>'), Sym('('), Sym('('), Ref(0), Sym('>'), Ref(1), Sym(')'), Sym(')')], [[Sym('P')], [Sym('Q')]], 3, 5) == Success(Flat([Ref(0), Sym('>'), Sym('('), Ref(3), Sym(')')], [[Sym('P')], [Sym('Q')], [Ref(0), Sym('>'), Ref(1)], [Sym('('), Ref(0), Sym('>'), Ref(1), Sym(')')]]))
  {
    var ts, els, content := [Ref(0), Sym('>'), Sym('('), Sym('('), Ref(0), Sym('>'), Ref(1), Sym(')'), Sym(')')], [[Sym('P')], [Sym('Q')]], [Ref(0), Sym('>'), Ref(1)];
    var inner, body := [[Sym('P')], [Sym('Q')], [Ref(0), Sym('>'), Ref(1)]], [Ref(0), Sym('>'), Ref(1)];
    var ts', els' := [Ref(0), Sym('>'), Sym('('), Ref(3), Sym(')')], [[Sym('P')], [Sym('Q')], [Ref(0), Sym('>'), Ref(1)], [Sym('('), Ref(0), Sym('>'), Ref(1), Sym(')')]];
    DoubledGroupStep4Found();
    DoubledGroupGroup4Flattens();
    DoubledGroupStep4Interned();
    GroupSubstitution(ts, els, 3, 5, content, inner, 2, body, 3, ts', els');
  }

  /** `P>((P>Q))`, groups: `(0>1)` `(0>1)` is new and becomes element 3. */
  lemma DoubledGroupStep4()
    requires Admissible([Ref(0), Sym('>'), Sym('('), Sym('('), Ref(0), Sym('>'), Ref(1), Sym(')'), Sym(')')], [[Sym('P')], [Sym('Q')]])
    ensures Admissible([Ref(0), Sym('>'), Sym('('), Ref(3), Sym(')')], [[Sym('P')], [Sym('Q')], [Ref(0), Sym('>'), Ref(1)], [Sym('('), Ref(0), Sym('>'), Ref(1), Sym(')')]])
    ensures Sweep(Groups, [Ref(0), Sym('>'), Sym('('), Sym('('), Ref(0), Sym('>'), Ref(1), Sym(')'), Sym(')')], [[Sym('P')], [Sym('Q')]]) == Sweep(Groups, [Ref(0), Sym('>'), Sym('('), Ref(3), Sym(')')], [[Sym('P')], [Sym('Q')], [Ref(0), Sym('>'), Ref(1)], [Sym('('), Ref(0), Sym('>'), Ref(1), Sym(')')]])
  {
    var ts, els, ts', els' := [Ref(0), Sym('>'), Sym('('), Sym('('), Ref(0), Sym('>'), Ref(1), Sym(')'), Sym(')')], [[Sym('P')], [Sym('Q')]], [Ref(0), Sym('>'), Sym('('), Ref(3), Sym(')')], [[Sym('P')], [Sym('Q')], [Ref(0), Sym('>'), Ref(1)], [Sym('('), Ref(0), Sym('>'), Ref(1), Sym(')')]];
    DoubledGroupStep4Found();
    DoubledGroupStep4Substitution();
    SweepBy(Groups, ts, els, 3, 5, ts', els');
  }

  /** `P>((P>Q))`, groups: the leftmost match is `(3)`, at 2. */
  lemma DoubledGroupStep6Found()
    ensures FirstMatch(Groups, [Ref(0), Sym('>'), Sym('('), Ref(3), Sym(')')], 0) == Some(2)
    ensures MatchLength(Groups, [Ref(0), Sym('>'), Sym('('), Ref(3), Sym(')')], 2) == 3
    ensures [Ref(0), Sym('>'), Ref(4)] == [Ref(0), Sym('>'), Sym('('), Ref(3), Sym(')')][..2] + [Ref(4)] + [Ref(0), Sym('>'), Sym('('), Ref(3), Sym(')')][5..]
    ensures [Ref(0), Sym('>'), Sym('('), Ref(3), Sym(')')][3..4] == [Ref(3)]
  {
  }

  /** `P>((P>Q))`: the group element `((0>1))` is new and becomes element 4. */
  lemma DoubledGroupStep6Interned()
    ensures 3 < |[[Sym('P')], [Sym('Q')], [Ref(0), Sym('>'), Ref(1)], [Sym('('), Ref(0), Sym('>'), Ref(1), Sym(')')]]| && [[Sym('P')], [Sym('Q')], [Ref(0), Sym('>'), Ref(1)], [Sym('('), Ref(0), Sym('>'), Ref(1), Sym(')')]][3] == [Sym('('), Ref(0), Sym('>'), Ref(1), Sym(')')]
    ensures Intern([[Sym('P')], [Sym('Q')], [Ref(0), Sym('>'), Ref(1)], [Sym('('), Ref(0), Sym('>'), Ref(1), Sym(')')]], [Sym('(')] + [Sym('('), Ref(0), Sym('>'), Ref(1), Sym(')')] + [Sym(')')]).0 == [[Sym('P')], [Sym('Q')], [Ref(0), Sym('>'), Ref(1)], [Sym('('), Ref(0), Sym('>'), Ref(1), Sym(')')], [Sym('('), Sym('('), Ref(0), Sym('>'), Ref(1), Sym(')'), Sym(')')]]
    ensures Intern([[Sym('P')], [Sym('Q')], [Ref(0), Sym('>'), Ref(1)], [Sym('('), Ref(0), Sym('>'), Ref(1), Sym(')')]], [Sym('(')] + [Sym('('), Ref(0), Sym('>'), Ref(1), Sym(')')] + [Sym(')')]).1 == 4
  {
    assert [Sym('(')] + [Sym('('), Ref(0), Sym('>'), Ref(1), Sym(')')] + [Sym(')')] == [Sym('('), Sym('('), Ref(0), Sym('>'), Ref(1), Sym(')'), Sym(')')];
    var els, e := [[Sym('P')], [Sym('Q')], [Ref(0), Sym('>'), Ref(1)], [Sym('('), Ref(0), Sym('>'), Ref(1), Sym(')')]], [Sym('('), Sym('('), Ref(0), Sym('>'), Ref(1), Sym(')'), Sym(')')];
    assert |els[0]| != |e|;
    assert |els[1]| != |e|;
    assert |els[2]| != |e|;
    assert |els[3]| != |e|;
  }

  /** `P>((P>Q))`, groups: the group at 2 becomes element 4. */
  lemma DoubledGroupStep6Substitution()
    requires Admissible([Ref(0), Sym('>'), Sym('('), Ref(3), Sym(')')], [[Sym('P')], [Sym('Q')], [Ref(0), Sym('>'), Ref(1)], [Sym('('), Ref(0), Sym('>'), Ref(1), Sym(')')]])
    ensures Substitute(Groups, [Ref(0), Sym('>'), Sym('('), Ref(3), Sym(')')], [[Sym('P')], [Sym('Q')], [Ref(0), Sym('>'), Ref(1)], [Sym('('), Ref(0), Sym('>'), Ref(1), Sym(')')]], 2, 3) == Success(Flat([Ref(0), Sym('>'), Ref(4)], [[Sym('P')], [Sym('Q')], [Ref(0), Sym('>'), Ref(1)], [Sym('('), Ref(0), Sym('>'), Ref(1), Sym(')')], [Sym('('), Sym('('), Ref(0), Sym('>'), Ref(1), Sym(')'), Sym(')')]]))
  {
    var ts, els, content := [Ref(0), Sym('>'), Sym('('), Ref(3), Sym(')')], [[Sym('P')], [Sym('Q')], [Ref(0), Sym('>'), Ref(1)], [Sym('('), Ref(0), Sym('>'), Ref(1), Sym(')')]], [Ref(3)];
    var inner, body := [[Sym('P')], [Sym('Q')], [Ref(0), Sym('>'), Ref(1)], [Sym('('), Ref(0), Sym('>'), Ref(1), Sym(')')]], [Sym('('), Ref(0), Sym('>'), Ref(1), Sym(')')];
    var ts', els' := [Ref(0), Sym('>'), Ref(4)], [[Sym('P')], [Sym('Q')], [Ref(0), Sym('>'), Ref(1)], [Sym('('), Ref(0), Sym('>'), Ref(1), Sym(')')], [Sym('('), Sym('('), Ref(0), Sym('>'), Ref(1), Sym(')'), Sym(')')]];
    DoubledGroupStep6Found();
    DoubledGroupGroup6Flattens();
    DoubledGroupStep6Interned();
    GroupSubstitution(ts, els, 2, 3, content, inner, 3, body, 4, ts', els');
  }

  /** `P>((P>Q))`, groups: `(3)` `((0>1))` is new and becomes element 4. */
  lemma DoubledGroupStep6()
    requires Admissible([Ref(0), Sym('>'), Sym('('), Ref(3), Sym(')')], [[Sym('P')], [Sym('Q')], [Ref(0), Sym('>'), Ref(1)], [Sym('('), Ref(0), Sym('>'), Ref(1), Sym(')')]])
    ensures Admissible([Ref(0), Sym('>'), Ref(4)], [[Sym('P')], [Sym('Q')], [Ref(0), Sym('>'), Ref(1)], [Sym('('), Ref(0), Sym('>'), Ref(1), Sym(')')], [Sym('('), Sym('('), Ref(0), Sym('>'), Ref(1), Sym(')'), Sym(')')]])
    ensures Sweep(Groups, [Ref(0), Sym('>'), Sym('('), Ref(3), Sym(')')], [[Sym('P')], [Sym('Q')], [Ref(0), Sym('>'), Ref(1)], [Sym('('), Ref(0), Sym('>'), Ref(1), Sym(')')]]) == Sweep(Groups, [Ref(0), Sym('>'), Ref(4)], [[Sym('P')], [Sym('Q')], [Ref(0), Sym('>'), Ref(1)], [Sym('('), Ref(0), Sym('>'), Ref(1), Sym(')')], [Sym('('), Sym('('), Ref(0), Sym('>'), Ref(1), Sym(')'), Sym(')')]])
  {
    var ts, els, ts', els' := [Ref(0), Sym('>'), Sym('('), Ref(3), Sym(')')], [[Sym('P')], [Sym('Q')], [Ref(0), Sym('>'), Ref(1)], [Sym('('), Ref(0), Sym('>'), Ref(1), Sym(')')]], [Ref(0), Sym('>'), Ref(4)], [[Sym('P')], [Sym('Q')], [Ref(0), Sym('>'), Ref(1)], [Sym('('), Ref(0), Sym('>'), Ref(1), Sym(')')], [Sym('('), Sym('('), Ref(0), Sym('>'), Ref(1), Sym(')'), Sym(')')]];
    DoubledGroupStep6Found();
    DoubledGroupStep6Substitution();
    SweepBy(Groups, ts, els, 2, 3, ts', els');
  }

  /** `P>((P>Q))`, implications: the leftmost match is `0>4`, at 0; it is new and becomes element 5. */
  lemma DoubledGroupStep7Found()
    ensures FirstMatch(Implications, [Ref(0), Sym('>'), Ref(4)], 0) == Some(0)
    ensures MatchLength(Implications, [Ref(0), Sym('>'), Ref(4)], 0) == 3
    ensures [Ref(5)] == [Ref(0), Sym('>'), Ref(4)][..0] + [Ref(5)] + [Ref(0), Sym('>'), Ref(4)][3..]
    ensures [Ref(0), Sym('>'), Ref(4)][0..3] == [Ref(0), Sym('>'), Ref(4)]
    ensures Intern([[Sym('P')], [Sym('Q')], [Ref(0), Sym('>'), Ref(1)], [Sym('('), Ref(0), Sym('>'), Ref(1), Sym(')')], [Sym('('), Sym('('), Ref(0), Sym('>'), Ref(1), Sym(')'), Sym(')')]], [Ref(0), Sym('>'), Ref(4)]).0 == [[Sym('P')], [Sym('Q')], [Ref(0), Sym('>'), Ref(1)], [Sym('('), Ref(0), Sym('>'), Ref(1), Sym(')')], [Sym('('), Sym('('), Ref(0), Sym('>'), Ref(1), Sym(')'), Sym(')')], [Ref(0), Sym('>'), Ref(4)]]
    ensures Intern([[Sym('P')], [Sym('Q')], [Ref(0), Sym('>'), Ref(1)], [Sym('('), Ref(0), Sym('>'), Ref(1), Sym(')')], [Sym('('), Sym('('), Ref(0), Sym('>'), Ref(1), Sym(')'), Sym(')')]], [Ref(0), Sym('>'), Ref(4)]).1 == 5
  {
    var els, e := [[Sym('P')], [Sym('Q')], [Ref(0), Sym('>'), Ref(1)], [Sym('('), Ref(0), Sym('>'), Ref(1), Sym(')')], [Sym('('), Sym('('), Ref(0), Sym('>'), Ref(1), Sym(')'), Sym(')')]], [Ref(0), Sym('>'), Ref(4)];
    assert |els[0]| != |e|;
    assert |els[1]| != |e|;
    assert els[2][2] != e[2];
    assert |els[3]| != |e|;
    assert |els[4]| != |e|;
  }

  /** `P>((P>Q))`, implications: `0>4` is new and becomes element 5. */
  lemma DoubledGroupStep7()
    requires Admissible([Ref(0), Sym('>'), Ref(4)], [[Sym('P')], [Sym('Q')], [Ref(0), Sym('>'), Ref(1)], [Sym('('), Ref(0), Sym('>'), Ref(1), Sym(')')], [Sym('('), Sym('('), Ref(0), Sym('>'), Ref(1), Sym(')'), Sym(')')]])
    ensures Admissible([Ref(5)], [[Sym('P')], [Sym('Q')], [Ref(0), Sym('>'), Ref(1)], [Sym('('), Ref(0), Sym('>'), Ref(1), Sym(')')], [Sym('('), Sym('('), Ref(0), Sym('>'), Ref(1), Sym(')'), Sym(')')], [Ref(0), Sym('>'), Ref(4)]])
    ensures Sweep(Implications, [Ref(0), Sym('>'), Ref(4)], [[Sym('P')], [Sym('Q')], [Ref(0), Sym('>'), Ref(1)], [Sym('('), Ref(0), Sym('>'), Ref(1), Sym(')')], [Sym('('), Sym('('), Ref(0), Sym('>'), Ref(1), Sym(')'), Sym(')')]]) == Sweep(Implications, [Ref(5)], [[Sym('P')], [Sym('Q')], [Ref(0), Sym('>'), Ref(1)], [Sym('('), Ref(0), Sym('>'), Ref(1), Sym(')')], [Sym('('), Sym('('), Ref(0), Sym('>'), Ref(1), Sym(')'), Sym(')')], [Ref(0), Sym('>'), Ref(4)]])
  {
    var ts, els, ts', els' := [Ref(0), Sym('>'), Ref(4)], [[Sym('P')], [Sym('Q')], [Ref(0), Sym('>'), Ref(1)], [Sym('('), Ref(0), Sym('>'), Ref(1), Sym(')')], [Sym('('), Sym('('), Ref(0), Sym('>'), Ref(1), Sym(')'), Sym(')')]], [Ref(5)], [[Sym('P')], [Sym('Q')], [Ref(0), Sym('>'), Ref(1)], [Sym('('), Ref(0), Sym('>'), Ref(1), Sym(')')], [Sym('('), Sym('('), Ref(0), Sym('>'), Ref(1), Sym(')'), Sym(')')], [Ref(0), Sym('>'), Ref(4)]];
    DoubledGroupStep7Found();
    SweepStep(Implications, ts, els, 0, 3, 5, ts', els');
  }

  /** `P>((P>Q))`, rule 0 (propositions): 3 substitutions. */
  lemma DoubledGroupAtoms()
    requires Admissible([Sym('P'), Sym('>'), Sym('('), Sym('('), Sym('P'), Sym('>'), Sym('Q'), Sym(')'), Sym(')')], NoElements)
    ensures Admissible([Ref(0), Sym('>'), Sym('('), Sym('('), Ref(0), Sym('>'), Ref(1), Sym(')'), Sym(')')], [[Sym('P')], [Sym('Q')]])
    ensures Sweep(Atoms, [Sym('P'), Sym('>'), Sym('('), Sym('('), Sym('P'), Sym('>'), Sym('Q'), Sym(')'), Sym(')')], NoElements) == Success(Flat([Ref(0), Sym('>'), Sym('('), Sym('('), Ref(0), Sym('>'), Ref(1), Sym(')'), Sym(')')], [[Sym('P')], [Sym('Q')]]))
  {
    var ts, els := [Ref(0), Sym('>'), Sym('('), Sym('('), Ref(0), Sym('>'), Ref(1), Sym(')'), Sym(')')], [[Sym('P')], [Sym('Q')]];
    DoubledGroupStep1();
    DoubledGroupStep2();
    DoubledGroupStep3();
    DoubledGroupDone();
    SweepStops(Atoms, ts, els);
  }

  /** `P>((P>Q))`, rule 1 (groups): 2 substitutions. */
  lemma DoubledGroupGroups()
    requires Admissible([Ref(0), Sym('>'), Sym('('), Sym('('), Ref(0), Sym('>'), Ref(1), Sym(')'), Sym(')')], [[Sym('P')], [Sym('Q')]])
    ensures Admissible([Ref(0), Sym('>'), Ref(4)], [[Sym('P')], [Sym('Q')], [Ref(0), Sym('>'), Ref(1)], [Sym('('), Ref(0), Sym('>'), Ref(1), Sym(')')], [Sym('('), Sym('('), Ref(0), Sym('>'), Ref(1), Sym(')'), Sym(')')]])
    ensures Sweep(Groups, [Ref(0), Sym('>'), Sym('('), Sym('('), Ref(0), Sym('>'), Ref(1), Sym(')'), Sym(')')], [[Sym('P')], [Sym('Q')]]) == Success(Flat([Ref(0), Sym('>'), Ref(4)], [[Sym('P')], [Sym('Q')], [Ref(0), Sym('>'), Ref(1)], [Sym('('), Ref(0), Sym('>'), Ref(1), Sym(')')], [Sym('('), Sym('('), Ref(0), Sym('>'), Ref(1), Sym(')'), Sym(')')]]))
  {
    var ts, els := [Ref(0), Sym('>'), Ref(4)], [[Sym('P')], [Sym('Q')], [Ref(0), Sym('>'), Ref(1)], [Sym('('), Ref(0), Sym('>'), Ref(1), Sym(')')], [Sym('('), Sym('('), Ref(0), Sym('>'), Ref(1), Sym(')'), Sym(')')]];
    DoubledGroupStep4();
    DoubledGroupStep6();
    DoubledGroupDone();
    SweepStops(Groups, ts, els);
  }

  /** `P>((P>Q))`, rule 2 (negations): nothing matches. */
  lemma DoubledGroupNegations()
    requires Admissible([Ref(0), Sym('>'), Ref(4)], [[Sym('P')], [Sym('Q')], [Ref(0), Sym('>'), Ref(1)], [Sym('('), Ref(0), Sym('>'), Ref(1), Sym(')')], [Sym('('), Sym('('), Ref(0), Sym('>'), Ref(1), Sym(')'), Sym(')')]])
    ensures Admissible([Ref(0), Sym('>'), Ref(4)], [[Sym('P')], [Sym('Q')], [Ref(0), Sym('>'), Ref(1)], [Sym('('), Ref(0), Sym('>'), Ref(1), Sym(')')], [Sym('('), Sym('('), Ref(0), Sym('>'), Ref(1), Sym(')'), Sym(')')]])
    ensures Sweep(Negations, [Ref(0), Sym('>'), Ref(4)], [[Sym('P')], [Sym('Q')], [Ref(0), Sym('>'), Ref(1)], [Sym('('), Ref(0), Sym('>'), Ref(1), Sym(')')], [Sym('('), Sym('('), Ref(0), Sym('>'), Ref(1), Sym(')'), Sym(')')]]) == Success(Flat([Ref(0), Sym('>'), Ref(4)], [[Sym('P')], [Sym('Q')], [Ref(0), Sym('>'), Ref(1)], [Sym('('), Ref(0), Sym('>'), Ref(1), Sym(')')], [Sym('('), Sym('('), Ref(0), Sym('>'), Ref(1), Sym(')'), Sym(')')]]))
  {
    var ts, els := [Ref(0), Sym('>'), Ref(4)], [[Sym('P')], [Sym('Q')], [Ref(0), Sym('>'), Ref(1)], [Sym('('), Ref(0), Sym('>'), Ref(1), Sym(')')], [Sym('('), Sym('('), Ref(0), Sym('>'), Ref(1), Sym(')'), Sym(')')]];
    DoubledGroupDone();
    SweepStops(Negations, ts, els);
  }

  /** `P>((P>Q))`, rule 3 (conjunctions and disjunctions): nothing matches. */
  lemma DoubledGroupJunctions()
    requires Admissible([Ref(0), Sym('>'), Ref(4)], [[Sym('P')], [Sym('Q')], [Ref(0), Sym('>'), Ref(1)], [Sym('('), Ref(0), Sym('>'), Ref(1), Sym(')')], [Sym('('), Sym('('), Ref(0), Sym('>'), Ref(1), Sym(')'), Sym(')')]])
    ensures Admissible([Ref(0), Sym('>'), Ref(4)], [[Sym('P')], [Sym('Q')], [Ref(0), Sym('>'), Ref(1)], [Sym('('), Ref(0), Sym('>'), Ref(1), Sym(')')], [Sym('('), Sym('('), Ref(0), Sym('>'), Ref(1), Sym(')'), Sym(')')]])
    ensures Sweep(Junctions, [Ref(0), Sym('>'), Ref(4)], [[Sym('P')], [Sym('Q')], [Ref(0), Sym('>'), Ref(1)], [Sym('('), Ref(0), Sym('>'), Ref(1), Sym(')')], [Sym('('), Sym('('), Ref(0), Sym('>'), Ref(1), Sym(')'), Sym(')')]]) == Success(Flat([Ref(0), Sym('>'), Ref(4)], [[Sym('P')], [Sym('Q')], [Ref(0), Sym('>'), Ref(1)], [Sym('('), Ref(0), Sym('>'), Ref(1), Sym(')')], [Sym('('), Sym('('), Ref(0), Sym('>'), Ref(1), Sym(')'), Sym(')')]]))
  {
    var ts, els := [Ref(0), Sym('>'), Ref(4)], [[Sym('P')], [Sym('Q')], [Ref(0), Sym('>'), Ref(1)], [Sym('('), Ref(0), Sym('>'), Ref(1), Sym(')')], [Sym('('), Sym('('), Ref(0), Sym('>'), Ref(1), Sym(')'), Sym(')')]];
    DoubledGroupDone();
    SweepStops(Junctions, ts, els);
  }

  /** `P>((P>Q))`, rule 4 (implications): 1 substitution. */
  lemma DoubledGroupImplications()
    requires Admissible([Ref(0), Sym('>'), Ref(4)], [[Sym('P')], [Sym('Q')], [Ref(0), Sym('>'), Ref(1)], [Sym('('), Ref(0), Sym('>'), Ref(1), Sym(')')], [Sym('('), Sym('('), Ref(0), Sym('>'), Ref(1), Sym(')'), Sym(')')]])
    ensures Admissible([Ref(5)], [[Sym('P')], [Sym('Q')], [Ref(0), Sym('>'), Ref(1)], [Sym('('), Ref(0), Sym('>'), Ref(1), Sym(')')], [Sym('('), Sym('('), Ref(0), Sym('>'), Ref(1), Sym(')'), Sym(')')], [Ref(0), Sym('>'), Ref(4)]])
    ensures Sweep(Implications, [Ref(0), Sym('>'), Ref(4)], [[Sym('P')], [Sym('Q')], [Ref(0), Sym('>'), Ref(1)], [Sym('('), Ref(0), Sym('>'), Ref(1), Sym(')')], [Sym('('), Sym('('), Ref(0), Sym('>'), Ref(1), Sym(')'), Sym(')')]]) == Success(Flat([Ref(5)], [[Sym('P')], [Sym('Q')], [Ref(0), Sym('>'), Ref(1)], [Sym('('), Ref(0), Sym('>'), Ref(1), Sym(')')], [Sym('('), Sym('('), Ref(0), Sym('>'), Ref(1), Sym(')'), Sym(')')], [Ref(0), Sym('>'), Ref(4)]]))
  {
    var ts, els := [Ref(5)], [[Sym('P')], [Sym('Q')], [Ref(0), Sym('>'), Ref(1)], [Sym('('), Ref(0), Sym('>'), Ref(1), Sym(')')], [Sym('('), Sym('('), Ref(0), Sym('>'), Ref(1), Sym(')'), Sym(')')], [Ref(0), Sym('>'), Ref(4)]];
    DoubledGroupStep7();
    DoubledGroupDone();
    SweepStops(Implications, ts, els);
  }

  /** `P>((P>Q))`: once each rule has been swept, nothing is left for it to match. */
  lemma DoubledGroupDone()
    ensures FirstMatch(Atoms, [Ref(0), Sym('>'), Sym('('), Sym('('), Ref(0), Sym('>'), Ref(1), Sym(')'), Sym(')')], 0) == None
    ensures FirstMatch(Groups, [Ref(0), Sym('>'), Ref(4)], 0) == None
    ensures FirstMatch(Negations, [Ref(0), Sym('>'), Ref(4)], 0) == None
    ensures FirstMatch(Junctions, [Ref(0), Sym('>'), Ref(4)], 0) == None
    ensures FirstMatch(Implications, [Ref(5)], 0) == None
  {
  }

  /** `P>((P>Q))` flattens to element 5. */
  lemma DoubledGroupFlattens()
    ensures Flatten([Sym('P'), Sym('>'), Sym('('), Sym('('), Sym('P'), Sym('>'), Sym('Q'), Sym(')'), Sym(')')], NoElements) == Success(Analysis([[Sym('P')], [Sym('Q')], [Ref(0), Sym('>'), Ref(1)], [Sym('('), Ref(0), Sym('>'), Ref(1), Sym(')')], [Sym('('), Sym('('), Ref(0), Sym('>'), Ref(1), Sym(')'), Sym(')')], [Ref(0), Sym('>'), Ref(4)]], 5))
  {
    var ts, els := [Sym('P'), Sym('>'), Sym('('), Sym('('), Sym('P'), Sym('>'), Sym('Q'), Sym(')'), Sym(')')], NoElements;
    var f1 := Flat([Ref(0), Sym('>'), Sym('('), Sym('('), Ref(0), Sym('>'), Ref(1), Sym(')'), Sym(')')], [[Sym('P')], [Sym('Q')]]);
    var f2 := Flat([Ref(0), Sym('>'), Ref(4)], [[Sym('P')], [Sym('Q')], [Ref(0), Sym('>'), Ref(1)], [Sym('('), Ref(0), Sym('>'), Ref(1), Sym(')')], [Sym('('), Sym('('), Ref(0), Sym('>'), Ref(1), Sym(')'), Sym(')')]]);
    var f3 := Flat([Ref(0), Sym('>'), Ref(4)], [[Sym('P')], [Sym('Q')], [Ref(0), Sym('>'), Ref(1)], [Sym('('), Ref(0), Sym('>'), Ref(1), Sym(')')], [Sym('('), Sym('('), Ref(0), Sym('>'), Ref(1), Sym(')'), Sym(')')]]);
    var f4 := Flat([Ref(0), Sym('>'), Ref(4)], [[Sym('P')], [Sym('Q')], [Ref(0), Sym('>'), Ref(1)], [Sym('('), Ref(0), Sym('>'), Ref(1), Sym(')')], [Sym('('), Sym('('), Ref(0), Sym('>'), Ref(1), Sym(')'), Sym(')')]]);
    var f5 := Flat([Ref(5)], [[Sym('P')], [Sym('Q')], [Ref(0), Sym('>'), Ref(1)], [Sym('('), Ref(0), Sym('>'), Ref(1), Sym(')')], [Sym('('), Sym('('), Ref(0), Sym('>'), Ref(1), Sym(')'), Sym(')')], [Ref(0), Sym('>'), Ref(4)]]);
    DoubledGroupAtoms();
    DoubledGroupGroups();
    DoubledGroupNegations();
    DoubledGroupJunctions();
    DoubledGroupImplications();
    FlattenOfRules(ts, els, f1, f2, f3, f4, f5, 5);
  }


  // ---------------------------------------------------------------------
  // `P`
  // ---------------------------------------------------------------------

  /** `P`, propositions: the leftmost match is `P`, at 0; it is new and becomes element 0. */
  lemma LonePStep1Found()
    ensures FirstMatch(Atoms, [Sym('P')], 0) == Some(0)
    ensures MatchLength(Atoms, [Sym('P')], 0) == 1
    ensures [Ref(0)] == [Sym('P')][..0] + [Ref(0)] + [Sym('P')][1..]
    ensures [Sym('P')][0..1] == [Sym('P')]
    ensures Intern(NoElements, [Sym('P')]).0 == [[Sym('P')]]
    ensures Intern(NoElements, [Sym('P')]).1 == 0
  {
  }

  /** `P`, propositions: `P` is new and becomes element 0. */
  lemma LonePStep1()
    requires Admissible([Sym('P')], NoElements)
    ensures Admissible([Ref(0)], [[Sym('P')]])
    ensures Sweep(Atoms, [Sym('P')], NoElements) == Sweep(Atoms, [Ref(0)], [[Sym('P')]])
  {
    var ts, els, ts', els' := [Sym('P')], NoElements, [Ref(0)], [[Sym('P')]];
    LonePStep1Found();
    SweepStep(Atoms, ts, els, 0, 1, 0, ts', els');
  }

  /** `P`, rule 0 (propositions): 1 substitution. */
  lemma LonePAtoms()
    requires Admissible([Sym('P')], NoElements)
    ensures Admissible([Ref(0)], [[Sym('P')]])
    ensures Sweep(Atoms, [Sym('P')], NoElements) == Success(Flat([Ref(0)], [[Sym('P')]]))
  {
    var ts, els := [Ref(0)], [[Sym('P')]];
    LonePStep1();
    LonePDone();
    SweepStops(Atoms, ts, els);
  }

  /** `P`, rule 1 (groups): nothing matches. */
  lemma LonePGroups()
    requires Admissible([Ref(0)], [[Sym('P')]])
    ensures Admissible([Ref(0)], [[Sym('P')]])
    ensures Sweep(Groups, [Ref(0)], [[Sym('P')]]) == Success(Flat([Ref(0)], [[Sym('P')]]))
  {
    var ts, els := [Ref(0)], [[Sym('P')]];
    LonePDone();
    SweepStops(Groups, ts, els);
  }

  /** `P`, rule 2 (negations): nothing matches. */
  lemma LonePNegations()
    requires Admissible([Ref(0)], [[Sym('P')]])
    ensures Admissible([Ref(0)], [[Sym('P')]])
    ensures Sweep(Negations, [Ref(0)], [[Sym('P')]]) == Success(Flat([Ref(0)], [[Sym('P')]]))
  {
    var ts, els := [Ref(0)], [[Sym('P')]];
    LonePDone();
    SweepStops(Negations, ts, els);
  }

  /** `P`, rule 3 (conjunctions and disjunctions): nothing matches. */
  lemma LonePJunctions()
    requires Admissible([Ref(0)], [[Sym('P')]])
    ensures Admissible([Ref(0)], [[Sym('P')]])
    ensures Sweep(Junctions, [Ref(0)], [[Sym('P')]]) == Success(Flat([Ref(0)], [[Sym('P')]]))
  {
    var ts, els := [Ref(0)], [[Sym('P')]];
    LonePDone();
    SweepStops(Junctions, ts, els);
  }

  /** `P`, rule 4 (implications): nothing matches. */
  lemma LonePImplications()
    requires Admissible([Ref(0)], [[Sym('P')]])
    ensures Admissible([Ref(0)], [[Sym('P')]])
    ensures Sweep(Implications, [Ref(0)], [[Sym('P')]]) == Success(Flat([Ref(0)], [[Sym('P')]]))
  {
    var ts, els := [Ref(0)], [[Sym('P')]];
    LonePDone();
    SweepStops(Implications, ts, els);
  }

  /** `P`: once each rule has been swept, nothing is left for it to match. */
  lemma LonePDone()
    ensures FirstMatch(Atoms, [Ref(0)], 0) == None
    ensures FirstMatch(Groups, [Ref(0)], 0) == None
    ensures FirstMatch(Negations, [Ref(0)], 0) == None
    ensures FirstMatch(Junctions, [Ref(0)], 0) == None
    ensures FirstMatch(Implications, [Ref(0)], 0) == None
  {
  }

  /** `P` flattens to element 0. */
  lemma LonePFlattens()
    ensures Flatten([Sym('P')], NoElements) == Success(Analysis([[Sym('P')]], 0))
  {
    var ts, els := [Sym('P')], NoElements;
    var f1 := Flat([Ref(0)], [[Sym('P')]]);
    var f2 := Flat([Ref(0)], [[Sym('P')]]);
    var f3 := Flat([Ref(0)], [[Sym('P')]]);
    var f4 := Flat([Ref(0)], [[Sym('P')]]);
    var f5 := Flat([Ref(0)], [[Sym('P')]]);
    LonePAtoms();
    LonePGroups();
    LonePNegations();
    LonePJunctions();
    LonePImplications();
    FlattenOfRules(ts, els, f1, f2, f3, f4, f5, 0);
  }


  // ---------------------------------------------------------------------
  // `Q`
  // ---------------------------------------------------------------------

  /** `Q`, propositions: the leftmost match is `Q`, at 0; it is new and becomes element 0. */
  lemma LoneQStep1Found()
    ensures FirstMatch(Atoms, [Sym('Q')], 0) == Some(0)
    ensures MatchLength(Atoms, [Sym('Q')], 0) == 1
    ensures [Ref(0)] == [Sym('Q')][..0] + [Ref(0)] + [Sym('Q')][1..]
    ensures [Sym('Q')][0..1] == [Sym('Q')]
    ensures Intern(NoElements, [Sym('Q')]).0 == [[Sym('Q')]]
    ensures Intern(NoElements, [Sym('Q')]).1 == 0
  {
  }

  /** `Q`, propositions: `Q` is new and becomes element 0. */
  lemma LoneQStep1()
    requires Admissible([Sym('Q')], NoElements)
    ensures Admissible([Ref(0)], [[Sym('Q')]])
    ensures Sweep(Atoms, [Sym('Q')], NoElements) == Sweep(Atoms, [Ref(0)], [[Sym('Q')]])
  {
    var ts, els, ts', els' := [Sym('Q')], NoElements, [Ref(0)], [[Sym('Q')]];
    LoneQStep1Found();
    SweepStep(Atoms, ts, els, 0, 1, 0, ts', els');
  }

  /** `Q`, rule 0 (propositions): 1 substitution. */
  lemma LoneQAtoms()
    requires Admissible([Sym('Q')], NoElements)
    ensures Admissible([Ref(0)], [[Sym('Q')]])
    ensures Sweep(Atoms, [Sym('Q')], NoElements) == Success(Flat([Ref(0)], [[Sym('Q')]]))
  {
    var ts, els := [Ref(0)], [[Sym('Q')]];
    LoneQStep1();
    LoneQDone();
    SweepStops(Atoms, ts, els);
  }

  /** `Q`, rule 1 (groups): nothing matches. */
  lemma LoneQGroups()
    requires Admissible([Ref(0)], [[Sym('Q')]])
    ensures Admissible([Ref(0)], [[Sym('Q')]])
    ensures Sweep(Groups, [Ref(0)], [[Sym('Q')]]) == Success(Flat([Ref(0)], [[Sym('Q')]]))
  {
    var ts, els := [Ref(0)], [[Sym('Q')]];
    LoneQDone();
    SweepStops(Groups, ts, els);
  }

  /** `Q`, rule 2 (negations): nothing matches. */
  lemma LoneQNegations()
    requires Admissible([Ref(0)], [[Sym('Q')]])
    ensures Admissible([Ref(0)], [[Sym('Q')]])
    ensures Sweep(Negations, [Ref(0)], [[Sym('Q')]]) == Success(Flat([Ref(0)], [[Sym('Q')]]))
  {
    var ts, els := [Ref(0)], [[Sym('Q')]];
    LoneQDone();
    SweepStops(Negations, ts, els);
  }

  /** `Q`, rule 3 (conjunctions and disjunctions): nothing matches. */
  lemma LoneQJunctions()
    requires Admissible([Ref(0)], [[Sym('Q')]])
    ensures Admissible([Ref(0)], [[Sym('Q')]])
    ensures Sweep(Junctions, [Ref(0)], [[Sym('Q')]]) == Success(Flat([Ref(0)], [[Sym('Q')]]))
  {
    var ts, els := [Ref(0)], [[Sym('Q')]];
    LoneQDone();
    SweepStops(Junctions, ts, els);
  }

  /** `Q`, rule 4 (implications): nothing matches. */
  lemma LoneQImplications()
    requires Admissible([Ref(0)], [[Sym('Q')]])
    ensures Admissible([Ref(0)], [[Sym('Q')]])
    ensures Sweep(Implications, [Ref(0)], [[Sym('Q')]]) == Success(Flat([Ref(0)], [[Sym('Q')]]))
  {
    var ts, els := [Ref(0)], [[Sym('Q')]];
    LoneQDone();
    SweepStops(Implications, ts, els);
  }

  /** `Q`: once each rule has been swept, nothing is left for it to match. */
  lemma LoneQDone()
    ensures FirstMatch(Atoms, [Ref(0)], 0) == None
    ensures FirstMatch(Groups, [Ref(0)], 0) == None
    ensures FirstMatch(Negations, [Ref(0)], 0) == None
    ensures FirstMatch(Junctions, [Ref(0)], 0) == None
    ensures FirstMatch(Implications, [Ref(0)], 0) == None
  {
  }

  /** `Q` flattens to element 0. */
  lemma LoneQFlattens()
    ensures Flatten([Sym('Q')], NoElements) == Success(Analysis([[Sym('Q')]], 0))
  {
    var ts, els := [Sym('Q')], NoElements;
    var f1 := Flat([Ref(0)], [[Sym('Q')]]);
    var f2 := Flat([Ref(0)], [[Sym('Q')]]);
    var f3 := Flat([Ref(0)], [[Sym('Q')]]);
    var f4 := Flat([Ref(0)], [[Sym('Q')]]);
    var f5 := Flat([Ref(0)], [[Sym('Q')]]);
    LoneQAtoms();
    LoneQGroups();
    LoneQNegations();
    LoneQJunctions();
    LoneQImplications();
    FlattenOfRules(ts, els, f1, f2, f3, f4, f5, 0);
  }


  // ---------------------------------------------------------------------
  // `P>Q`
  // ---------------------------------------------------------------------

  /** `P>Q`, propositions: the leftmost match is `P`, at 0; it is new and becomes element 0. */
  lemma PlainImplicationStep1Found()
    ensures FirstMatch(Atoms, [Sym('P'), Sym('>'), Sym('Q')], 0) == Some(0)
    ensures MatchLength(Atoms, [Sym('P'), Sym('>'), Sym('Q')], 0) == 1
    ensures [Ref(0), Sym('>'), Sym('Q')] == [Sym('P'), Sym('>'), Sym('Q')][..0] + [Ref(0)] + [Sym('P'), Sym('>'), Sym('Q')][1..]
    ensures [Sym('P'), Sym('>'), Sym('Q')][0..1] == [Sym('P')]
    ensures Intern(NoElements, [Sym('P')]).0 == [[Sym('P')]]
    ensures Intern(NoElements, [Sym('P')]).1 == 0
  {
  }

  /** `P>Q`, propositions: `P` is new and becomes element 0. */
  lemma PlainImplicationStep1()
    requires Admissible([Sym('P'), Sym('>'), Sym('Q')], NoElements)
    ensures Admissible([Ref(0), Sym('>'), Sym('Q')], [[Sym('P')]])
    ensures Sweep(Atoms, [Sym('P'), Sym('>'), Sym('Q')], NoElements) == Sweep(Atoms, [Ref(0), Sym('>'), Sym('Q')], [[Sym('P')]])
  {
    var ts, els, ts', els' := [Sym('P'), Sym('>'), Sym('Q')], NoElements, [Ref(0), Sym('>'), Sym('Q')], [[Sym('P')]];
    PlainImplicationStep1Found();
    SweepStep(Atoms, ts, els, 0, 1, 0, ts', els');
  }

  /** `P>Q`, propositions: the leftmost match is `Q`, at 2; it is new and becomes element 1. */
  lemma PlainImplicationStep2Found()
    ensures FirstMatch(Atoms, [Ref(0), Sym('>'), Sym('Q')], 0) == Some(2)
    ensures MatchLength(Atoms, [Ref(0), Sym('>'), Sym('Q')], 2) == 1
    ensures [Ref(0), Sym('>'), Ref(1)] == [Ref(0), Sym('>'), Sym('Q')][..2] + [Ref(1)] + [Ref(0), Sym('>'), Sym('Q')][3..]
    ensures [Ref(0), Sym('>'), Sym('Q')][2..3] == [Sym('Q')]
    ensures Intern([[Sym('P')]], [Sym('Q')]).0 == [[Sym('P')], [Sym('Q')]]
    ensures Intern([[Sym('P')]], [Sym('Q')]).1 == 1
  {
    var els, e := [[Sym('P')]], [Sym('Q')];
    assert els[0][0] != e[0];
  }

  /** `P>Q`, propositions: `Q` is new and becomes element 1. */
  lemma PlainImplicationStep2()
    requires Admissible([Ref(0), Sym('>'), Sym('Q')], [[Sym('P')]])
    ensures Admissible([Ref(0), Sym('>'), Ref(1)], [[Sym('P')], [Sym('Q')]])
    ensures Sweep(Atoms, [Ref(0), Sym('>'), Sym('Q')], [[Sym('P')]]) == Sweep(Atoms, [Ref(0), Sym('>'), Ref(1)], [[Sym('P')], [Sym('Q')]])
  {
    var ts, els, ts', els' := [Ref(0), Sym('>'), Sym('Q')], [[Sym('P')]], [Ref(0), Sym('>'), Ref(1)], [[Sym('P')], [Sym('Q')]];
    PlainImplicationStep2Found();
    SweepStep(Atoms, ts, els, 2, 1, 1, ts', els');
  }

  /** `P>Q`, implications: the leftmost match is `0>1`, at 0; it is new and becomes element 2. */
  lemma PlainImplicationStep3Found()
    ensures FirstMatch(Implications, [Ref(0), Sym('>'), Ref(1)], 0) == Some(0)
    ensures MatchLength(Implications, [Ref(0), Sym('>'), Ref(1)], 0) == 3
    ensures [Ref(2)] == [Ref(0), Sym('>'), Ref(1)][..0] + [Ref(2)] + [Ref(0), Sym('>'), Ref(1)][3..]
    ensures [Ref(0), Sym('>'), Ref(1)][0..3] == [Ref(0), Sym('>'), Ref(1)]
    ensures Intern([[Sym('P')], [Sym('Q')]], [Ref(0), Sym('>'), Ref(1)]).0 == [[Sym('P')], [Sym('Q')], [Ref(0), Sym('>'), Ref(1)]]
    ensures Intern([[Sym('P')], [Sym('Q')]], [Ref(0), Sym('>'), Ref(1)]).1 == 2
  {
    var els, e := [[Sym('P')], [Sym('Q')]], [Ref(0), Sym('>'), Ref(1)];
    assert |els[0]| != |e|;
    assert |els[1]| != |e|;
  }

  /** `P>Q`, implications: `0>1` is new and becomes element 2. */
  lemma PlainImplicationStep3()
    requires Admissible([Ref(0), Sym('>'), Ref(1)], [[Sym('P')], [Sym('Q')]])
    ensures Admissible([Ref(2)], [[Sym('P')], [Sym('Q')], [Ref(0), Sym('>'), Ref(1)]])
    ensures Sweep(Implications, [Ref(0), Sym('>'), Ref(1)], [[Sym('P')], [Sym('Q')]]) == Sweep(Implications, [Ref(2)], [[Sym('P')], [Sym('Q')], [Ref(0), Sym('>'), Ref(1)]])
  {
    var ts, els, ts', els' := [Ref(0), Sym('>'), Ref(1)], [[Sym('P')], [Sym('Q')]], [Ref(2)], [[Sym('P')], [Sym('Q')], [Ref(0), Sym('>'), Ref(1)]];
    PlainImplicationStep3Found();
    SweepStep(Implications, ts, els, 0, 3, 2, ts', els');
  }

  /** `P>Q`, rule 0 (propositions): 2 substitutions. */
  lemma PlainImplicationAtoms()
    requires Admissible([Sym('P'), Sym('>'), Sym('Q')], NoElements)
    ensures Admissible([Ref(0), Sym('>'), Ref(1)], [[Sym('P')], [Sym('Q')]])
    ensures Sweep(Atoms, [Sym('P'), Sym('>'), Sym('Q')], NoElements) == Success(Flat([Ref(0), Sym('>'), Ref(1)], [[Sym('P')], [Sym('Q')]]))
  {
    var ts, els := [Ref(0), Sym('>'), Ref(1)], [[Sym('P')], [Sym('Q')]];
    PlainImplicationStep1();
    PlainImplicationStep2();
    PlainImplicationDone();
    SweepStops(Atoms, ts, els);
  }

  /** `P>Q`, rule 1 (groups): nothing matches. */
  lemma PlainImplicationGroups()
    requires Admissible([Ref(0), Sym('>'), Ref(1)], [[Sym('P')], [Sym('Q')]])
    ensures Admissible([Ref(0), Sym('>'), Ref(1)], [[Sym('P')], [Sym('Q')]])
    ensures Sweep(Groups, [Ref(0), Sym('>'), Ref(1)], [[Sym('P')], [Sym('Q')]]) == Success(Flat([Ref(0), Sym('>'), Ref(1)], [[Sym('P')], [Sym('Q')]]))
  {
    var ts, els := [Ref(0), Sym('>'), Ref(1)], [[Sym('P')], [Sym('Q')]];
    PlainImplicationDone();
    SweepStops(Groups, ts, els);
  }

  /** `P>Q`, rule 2 (negations): nothing matches. */
  lemma PlainImplicationNegations()
    requires Admissible([Ref(0), Sym('>'), Ref(1)], [[Sym('P')], [Sym('Q')]])
    ensures Admissible([Ref(0), Sym('>'), Ref(1)], [[Sym('P')], [Sym('Q')]])
    ensures Sweep(Negations, [Ref(0), Sym('>'), Ref(1)], [[Sym('P')], [Sym('Q')]]) == Success(Flat([Ref(0), Sym('>'), Ref(1)], [[Sym('P')], [Sym('Q')]]))
  {
    var ts, els := [Ref(0), Sym('>'), Ref(1)], [[Sym('P')], [Sym('Q')]];
    PlainImplicationDone();
    SweepStops(Negations, ts, els);
  }

  /** `P>Q`, rule 3 (conjunctions and disjunctions): nothing matches. */
  lemma PlainImplicationJunctions()
    requires Admissible([Ref(0), Sym('>'), Ref(1)], [[Sym('P')], [Sym('Q')]])
    ensures Admissible([Ref(0), Sym('>'), Ref(1)], [[Sym('P')], [Sym('Q')]])
    ensures Sweep(Junctions, [Ref(0), Sym('>'), Ref(1)], [[Sym('P')], [Sym('Q')]]) == Success(Flat([Ref(0), Sym('>'), Ref(1)], [[Sym('P')], [Sym('Q')]]))
  {
    var ts, els := [Ref(0), Sym('>'), Ref(1)], [[Sym('P')], [Sym('Q')]];
    PlainImplicationDone();
    SweepStops(Junctions, ts, els);
  }

  /** `P>Q`, rule 4 (implications): 1 substitution. */
  lemma PlainImplicationImplications()
    requires Admissible([Ref(0), Sym('>'), Ref(1)], [[Sym('P')], [Sym('Q')]])
    ensures Admissible([Ref(2)], [[Sym('P')], [Sym('Q')], [Ref(0), Sym('>'), Ref(1)]])
    ensures Sweep(Implications, [Ref(0), Sym('>'), Ref(1)], [[Sym('P')], [Sym('Q')]]) == Success(Flat([Ref(2)], [[Sym('P')], [Sym('Q')], [Ref(0), Sym('>'), Ref(1)]]))
  {
    var ts, els := [Ref(2)], [[Sym('P')], [Sym('Q')], [Ref(0), Sym('>'), Ref(1)]];
    PlainImplicationStep3();
    PlainImplicationDone();
    SweepStops(Implications, ts, els);
  }

  /** `P>Q`: once each rule has been swept, nothing is left for it to match. */
  lemma PlainImplicationDone()
    ensures FirstMatch(Atoms, [Ref(0), Sym('>'), Ref(1)], 0) == None
    ensures FirstMatch(Groups, [Ref(0), Sym('>'), Ref(1)], 0) == None
    ensures FirstMatch(Negations, [Ref(0), Sym('>'), Ref(1)], 0) == None
    ensures FirstMatch(Junctions, [Ref(0), Sym('>'), Ref(1)], 0) == None
    ensures FirstMatch(Implications, [Ref(2)], 0) == None
  {
  }

  /** `P>Q` flattens to element 2. */
  lemma PlainImplicationFlattens()
    ensures Flatten([Sym('P'), Sym('>'), Sym('Q')], NoElements) == Success(Analysis([[Sym('P')], [Sym('Q')], [Ref(0), Sym('>'), Ref(1)]], 2))
  {
    var ts, els := [Sym('P'), Sym('>'), Sym('Q')], NoElements;
    var f1 := Flat([Ref(0), Sym('>'), Ref(1)], [[Sym('P')], [Sym('Q')]]);
    var f2 := Flat([Ref(0), Sym('>'), Ref(1)], [[Sym('P')], [Sym('Q')]]);
    var f3 := Flat([Ref(0), Sym('>'), Ref(1)], [[Sym('P')], [Sym('Q')]]);
    var f4 := Flat([Ref(0), Sym('>'), Ref(1)], [[Sym('P')], [Sym('Q')]]);
    var f5 := Flat([Ref(2)], [[Sym('P')], [Sym('Q')], [Ref(0), Sym('>'), Ref(1)]]);
    PlainImplicationAtoms();
    PlainImplicationGroups();
    PlainImplicationNegations();
    PlainImplicationJunctions();
    PlainImplicationImplications();
    FlattenOfRules(ts, els, f1, f2, f3, f4, f5, 2);
  }


  // ---------------------------------------------------------------------
  // `(P>Q)`
  // ---------------------------------------------------------------------

  /** `(P>Q)`, implications: the leftmost match is `0>1`, at 0; it is new and becomes element 2. */
  lemma GroupedImplicationStep4Found()
    ensures FirstMatch(Implications, [Ref(0), Sym('>'), Ref(1)], 0) == Some(0)
    ensures MatchLength(Implications, [Ref(0), Sym('>'), Ref(1)], 0) == 3
    ensures [Ref(2)] == [Ref(0), Sym('>'), Ref(1)][..0] + [Ref(2)] + [Ref(0), Sym('>'), Ref(1)][3..]
    ensures [Ref(0), Sym('>'), Ref(1)][0..3] == [Ref(0), Sym('>'), Ref(1)]
    ensures Intern([[Sym('P')], [Sym('Q')]], [Ref(0), Sym('>'), Ref(1)]).0 == [[Sym('P')], [Sym('Q')], [Ref(0), Sym('>'), Ref(1)]]
    ensures Intern([[Sym('P')], [Sym('Q')]], [Ref(0), Sym('>'), Ref(1)]).1 == 2
  {
    var els, e := [[Sym('P')], [Sym('Q')]], [Ref(0), Sym('>'), Ref(1)];
    assert |els[0]| != |e|;
    assert |els[1]| != |e|;
  }

  /** `(P>Q)`, implications: `0>1` is new and becomes element 2. */
  lemma GroupedImplicationStep4()
    requires Admissible([Ref(0), Sym('>'), Ref(1)], [[Sym('P')], [Sym('Q')]])
    ensures Admissible([Ref(2)], [[Sym('P')], [Sym('Q')], [Ref(0), Sym('>'), Ref(1)]])
    ensures Sweep(Implications, [Ref(0), Sym('>'), Ref(1)], [[Sym('P')], [Sym('Q')]]) == Sweep(Implications, [Ref(2)], [[Sym('P')], [Sym('Q')], [Ref(0), Sym('>'), Ref(1)]])
  {
    var ts, els, ts', els' := [Ref(0), Sym('>'), Ref(1)], [[Sym('P')], [Sym('Q')]], [Ref(2)], [[Sym('P')], [Sym('Q')], [Ref(0), Sym('>'), Ref(1)]];
    GroupedImplicationStep4Found();
    SweepStep(Implications, ts, els, 0, 3, 2, ts', els');
  }

  /** In `(P>Q)`, the content `0>1` of a group, rule 0 (propositions): nothing matches. */
  lemma GroupedImplicationGroup3Atoms()
    requires Admissible([Ref(0), Sym('>'), Ref(1)], [[Sym('P')], [Sym('Q')]])
    ensures Admissible([Ref(0), Sym('>'), Ref(1)], [[Sym('P')], [Sym('Q')]])
    ensures Sweep(Atoms, [Ref(0), Sym('>'), Ref(1)], [[Sym('P')], [Sym('Q')]]) == Success(Flat([Ref(0), Sym('>'), Ref(1)], [[Sym('P')], [Sym('Q')]]))
  {
    var ts, els := [Ref(0), Sym('>'), Ref(1)], [[Sym('P')], [Sym('Q')]];
    GroupedImplicationGroup3Done();
    SweepStops(Atoms, ts, els);
  }

  /** In `(P>Q)`, the content `0>1` of a group, rule 1 (groups): nothing matches. */
  lemma GroupedImplicationGroup3Groups()
    requires Admissible([Ref(0), Sym('>'), Ref(1)], [[Sym('P')], [Sym('Q')]])
    ensures Admissible([Ref(0), Sym('>'), Ref(1)], [[Sym('P')], [Sym('Q')]])
    ensures Sweep(Groups, [Ref(0), Sym('>'), Ref(1)], [[Sym('P')], [Sym('Q')]]) == Success(Flat([Ref(0), Sym('>'), Ref(1)], [[Sym('P')], [Sym('Q')]]))
  {
    var ts, els := [Ref(0), Sym('>'), Ref(1)], [[Sym('P')], [Sym('Q')]];
    GroupedImplicationGroup3Done();
    SweepStops(Groups, ts, els);
  }

  /** In `(P>Q)`, the content `0>1` of a group, rule 2 (negations): nothing matches. */
  lemma GroupedImplicationGroup3Negations()
    requires Admissible([Ref(0), Sym('>'), Ref(1)], [[Sym('P')], [Sym('Q')]])
    ensures Admissible([Ref(0), Sym('>'), Ref(1)], [[Sym('P')], [Sym('Q')]])
    ensures Sweep(Negations, [Ref(0), Sym('>'), Ref(1)], [[Sym('P')], [Sym('Q')]]) == Success(Flat([Ref(0), Sym('>'), Ref(1)], [[Sym('P')], [Sym('Q')]]))
  {
    var ts, els := [Ref(0), Sym('>'), Ref(1)], [[Sym('P')], [Sym('Q')]];
    GroupedImplicationGroup3Done();
    SweepStops(Negations, ts, els);
  }

  /** In `(P>Q)`, the content `0>1` of a group, rule 3 (conjunctions and disjunctions): nothing matches. */
  lemma GroupedImplicationGroup3Junctions()
    requires Admissible([Ref(0), Sym('>'), Ref(1)], [[Sym('P')], [Sym('Q')]])
    ensures Admissible([Ref(0), Sym('>'), Ref(1)], [[Sym('P')], [Sym('Q')]])
    ensures Sweep(Junctions, [Ref(0), Sym('>'), Ref(1)], [[Sym('P')], [Sym('Q')]]) == Success(Flat([Ref(0), Sym('>'), Ref(1)], [[Sym('P')], [Sym('Q')]]))
  {
    var ts, els := [Ref(0), Sym('>'), Ref(1)], [[Sym('P')], [Sym('Q')]];
    GroupedImplicationGroup3Done();
    SweepStops(Junctions, ts, els);
  }

  /** In `(P>Q)`, the content `0>1` of a group, rule 4 (implications): 1 substitution. */
  lemma GroupedImplicationGroup3Implications()
    requires Admissible([Ref(0), Sym('>'), Ref(1)], [[Sym('P')], [Sym('Q')]])
    ensures Admissible([Ref(2)], [[Sym('P')], [Sym('Q')], [Ref(0), Sym('>'), Ref(1)]])
    ensures Sweep(Implications, [Ref(0), Sym('>'), Ref(1)], [[Sym('P')], [Sym('Q')]]) == Success(Flat([Ref(2)], [[Sym('P')], [Sym('Q')], [Ref(0), Sym('>'), Ref(1)]]))
  {
    var ts, els := [Ref(2)], [[Sym('P')], [Sym('Q')], [Ref(0), Sym('>'), Ref(1)]];
    GroupedImplicationStep4();
    GroupedImplicationGroup3Done();
    SweepStops(Implications, ts, els);
  }

  /** In `(P>Q)`, the content `0>1` of a group: once each rule has been swept, nothing is left for it to match. */
  lemma GroupedImplicationGroup3Done()
    ensures FirstMatch(Atoms, [Ref(0), Sym('>'), Ref(1)], 0) == None
    ensures FirstMatch(Groups, [Ref(0), Sym('>'), Ref(1)], 0) == None
    ensures FirstMatch(Negations, [Ref(0), Sym('>'), Ref(1)], 0) == None
    ensures FirstMatch(Junctions, [Ref(0), Sym('>'), Ref(1)], 0) == None
    ensures FirstMatch(Implications, [Ref(2)], 0) == None
  {
  }

  /** In `(P>Q)`, the content `0>1` of a group flattens to element 2. */
  lemma GroupedImplicationGroup3Flattens()
    requires Admissible([Ref(0), Sym('>'), Ref(1)], [[Sym('P')], [Sym('Q')]])
    ensures Flatten([Ref(0), Sym('>'), Ref(1)], [[Sym('P')], [Sym('Q')]]) == Success(Analysis([[Sym('P')], [Sym('Q')], [Ref(0), Sym('>'), Ref(1)]], 2))
  {
    var ts, els := [Ref(0), Sym('>'), Ref(1)], [[Sym('P')], [Sym('Q')]];
    var f1 := Flat([Ref(0), Sym('>'), Ref(1)], [[Sym('P')], [Sym('Q')]]);
    var f2 := Flat([Ref(0), Sym('>'), Ref(1)], [[Sym('P')], [Sym('Q')]]);
    var f3 := Flat([Ref(0), Sym('>'), Ref(1)], [[Sym('P')], [Sym('Q')]]);
    var f4 := Flat([Ref(0), Sym('>'), Ref(1)], [[Sym('P')], [Sym('Q')]]);
    var f5 := Flat([Ref(2)], [[Sym('P')], [Sym('Q')], [Ref(0), Sym('>'), Ref(1)]]);
    GroupedImplicationGroup3Atoms();
    GroupedImplicationGroup3Groups();
    GroupedImplicationGroup3Negations();
    GroupedImplicationGroup3Junctions();
    GroupedImplicationGroup3Implications();
    FlattenOfRules(ts, els, f1, f2, f3, f4, f5, 2);
  }

  /** `(P>Q)`, propositions: the leftmost match is `P`, at 1; it is new and becomes element 0. */
  lemma GroupedImplicationStep1Found()
    ensures FirstMatch(Atoms, [Sym('('), Sym('P'), Sym('>'), Sym('Q'), Sym(')')], 0) == Some(1)
    ensures MatchLength(Atoms, [Sym('('), Sym('P'), Sym('>'), Sym('Q'), Sym(')')], 1) == 1
    ensures [Sym('('), Ref(0), Sym('>'), Sym('Q'), Sym(')')] == [Sym('('), Sym('P'), Sym('>'), Sym('Q'), Sym(')')][..1] + [Ref(0)] + [Sym('('), Sym('P'), Sym('>'), Sym('Q'), Sym(')')][2..]
    ensures [Sym('('), Sym('P'), Sym('>'), Sym('Q'), Sym(')')][1..2] == [Sym('P')]
    ensures Intern(NoElements, [Sym('P')]).0 == [[Sym('P')]]
    ensures Intern(NoElements, [Sym('P')]).1 == 0
  {
  }

  /** `(P>Q)`, propositions: `P` is new and becomes element 0. */
  lemma GroupedImplicationStep1()
    requires Admissible([Sym('('), Sym('P'), Sym('>'), Sym('Q'), Sym(')')], NoElements)
    ensures Admissible([Sym('('), Ref(0), Sym('>'), Sym('Q'), Sym(')')], [[Sym('P')]])
    ensures Sweep(Atoms, [Sym('('), Sym('P'), Sym('>'), Sym('Q'), Sym(')')], NoElements) == Sweep(Atoms, [Sym('('), Ref(0), Sym('>'), Sym('Q'), Sym(')')], [[Sym('P')]])
  {
    var ts, els, ts', els' := [Sym('('), Sym('P'), Sym('>'), Sym('Q'), Sym(')')], NoElements, [Sym('('), Ref(0), Sym('>'), Sym('Q'), Sym(')')], [[Sym('P')]];
    GroupedImplicationStep1Found();
    SweepStep(Atoms, ts, els, 1, 1, 0, ts', els');
  }

  /** `(P>Q)`, propositions: the leftmost match is `Q`, at 3; it is new and becomes element 1. */
  lemma GroupedImplicationStep2Found()
    ensures FirstMatch(Atoms, [Sym('('), Ref(0), Sym('>'), Sym('Q'), Sym(')')], 0) == Some(3)
    ensures MatchLength(Atoms, [Sym('('), Ref(0), Sym('>'), Sym('Q'), Sym(')')], 3) == 1
    ensures [Sym('('), Ref(0), Sym('>'), Ref(1), Sym(')')] == [Sym('('), Ref(0), Sym('>'), Sym('Q'), Sym(')')][..3] + [Ref(1)] + [Sym('('), Ref(0), Sym('>'), Sym('Q'), Sym(')')][4..]
    ensures [Sym('('), Ref(0), Sym('>'), Sym('Q'), Sym(')')][3..4] == [Sym('Q')]
    ensures Intern([[Sym('P')]], [Sym('Q')]).0 == [[Sym('P')], [Sym('Q')]]
    ensures Intern([[Sym('P')]], [Sym('Q')]).1 == 1
  {
    var els, e := [[Sym('P')]], [Sym('Q')];
    assert els[0][0] != e[0];
  }

  /** `(P>Q)`, propositions: `Q` is new and becomes element 1. */
  lemma GroupedImplicationStep2()
    requires Admissible([Sym('('), Ref(0), Sym('>'), Sym('Q'), Sym(')')], [[Sym('P')]])
    ensures Admissible([Sym('('), Ref(0), Sym('>'), Ref(1), Sym(')')], [[Sym('P')], [Sym('Q')]])
    ensures Sweep(Atoms, [Sym('('), Ref(0), Sym('>'), Sym('Q'), Sym(')')], [[Sym('P')]]) == Sweep(Atoms, [Sym('('), Ref(0), Sym('>'), Ref(1), Sym(')')], [[Sym('P')], [Sym('Q')]])
  {
    var ts, els, ts', els' := [Sym('('), Ref(0), Sym('>'), Sym('Q'), Sym(')')], [[Sym('P')]], [Sym('('), Ref(0), Sym('>'), Ref(1), Sym(')')], [[Sym('P')], [Sym('Q')]];
    GroupedImplicationStep2Found();
    SweepStep(Atoms, ts, els, 3, 1, 1, ts', els');
  }

  /** `(P>Q)`, groups: the leftmost match is `(0>1)`, at 0. */
  lemma GroupedImplicationStep3Found()
    ensures FirstMatch(Groups, [Sym('('), Ref(0), Sym('>'), Ref(1), Sym(')')], 0) == Some(0)
    ensures MatchLength(Groups, [Sym('('), Ref(0), Sym('>'), Ref(1), Sym(')')], 0) == 5
    ensures [Ref(3)] == [Sym('('), Ref(0), Sym('>'), Ref(1), Sym(')')][..0] + [Ref(3)] + [Sym('('), Ref(0), Sym('>'), Ref(1), Sym(')')][5..]
    ensures [Sym('('), Ref(0), Sym('>'), Ref(1), Sym(')')][1..4] == [Ref(0), Sym('>'), Ref(1)]
  {
  }

  /** `(P>Q)`: the group element `(0>1)` is new and becomes element 3. */
  lemma GroupedImplicationStep3Interned()
    ensures 2 < |[[Sym('P')], [Sym('Q')], [Ref(0), Sym('>'), Ref(1)]]| && [[Sym('P')], [Sym('Q')], [Ref(0), Sym('>'), Ref(1)]][2] == [Ref(0), Sym('>'), Ref(1)]
    ensures Intern([[Sym('P')], [Sym('Q')], [Ref(0), Sym('>'), Ref(1)]], [Sym('(')] + [Ref(0), Sym('>'), Ref(1)] + [Sym(')')]).0 == [[Sym('P')], [Sym('Q')], [Ref(0), Sym('>'), Ref(1)], [Sym('('), Ref(0), Sym('>'), Ref(1), Sym(')')]]
    ensures Intern([[Sym('P')], [Sym('Q')], [Ref(0), Sym('>'), Ref(1)]], [Sym('(')] + [Ref(0), Sym('>'), Ref(1)] + [Sym(')')]).1 == 3
  {
    assert [Sym('(')] + [Ref(0), Sym('>'), Ref(1)] + [Sym(')')] == [Sym('('), Ref(0), Sym('>'), Ref(1), Sym(')')];
    var els, e := [[Sym('P')], [Sym('Q')], [Ref(0), Sym('>'), Ref(1)]], [Sym('('), Ref(0), Sym('>'), Ref(1), Sym(')')];
    assert |els[0]| != |e|;
    assert |els[1]| != |e|;
    assert |els[2]| != |e|;
  }

  /** `(P>Q)`, groups: the group at 0 becomes element 3. */
  lemma GroupedImplicationStep3Substitution()
    requires Admissible([Sym('('), Ref(0), Sym('>'), Ref(1), Sym(')')], [[Sym('P')], [Sym('Q')]])
    ensures Substitute(Groups, [Sym('('), Ref(0), Sym('>'), Ref(1), Sym(')')], [[Sym('P')], [Sym('Q')]], 0, 5) == Success(Flat([Ref(3)], [[Sym('P')], [Sym('Q')], [Ref(0), Sym('>'), Ref(1)], [Sym('('), Ref(0), Sym('>'), Ref(1), Sym(')')]]))
  {
    var ts, els, content := [Sym('('), Ref(0), Sym('>'), Ref(1), Sym(')')], [[Sym('P')], [Sym('Q')]], [Ref(0), Sym('>'), Ref(1)];
    var inner, body := [[Sym('P')], [Sym('Q')], [Ref(0), Sym('>'), Ref(1)]], [Ref(0), Sym('>'), Ref(1)];
    var ts', els' := [Ref(3)], [[Sym('P')], [Sym('Q')], [Ref(0), Sym('>'), Ref(1)], [Sym('('), Ref(0), Sym('>'), Ref(1), Sym(')')]];
    GroupedImplicationStep3Found();
    GroupedImplicationGroup3Flattens();
    GroupedImplicationStep3Interned();
    GroupSubstitution(ts, els, 0, 5, content, inner, 2, body, 3, ts', els');
  }

  /** `(P>Q)`, groups: `(0>1)` `(0>1)` is new and becomes element 3. */
  lemma GroupedImplicationStep3()
    requires Admissible([Sym('('), Ref(0), Sym('>'), Ref(1), Sym(')')], [[Sym('P')], [Sym('Q')]])
    ensures Admissible([Ref(3)], [[Sym('P')], [Sym('Q')], [Ref(0), Sym('>'), Ref(1)], [Sym('('), Ref(0), Sym('>'), Ref(1), Sym(')')]])
    ensures Sweep(Groups, [Sym('('), Ref(0), Sym('>'), Ref(1), Sym(')')], [[Sym('P')], [Sym('Q')]]) == Sweep(Groups, [Ref(3)], [[Sym('P')], [Sym('Q')], [Ref(0), Sym('>'), Ref(1)], [Sym('('), Ref(0), Sym('>'), Ref(1), Sym(')')]])
  {
    var ts, els, ts', els' := [Sym('('), Ref(0), Sym('>'), Ref(1), Sym(')')], [[Sym('P')], [Sym('Q')]], [Ref(3)], [[Sym('P')], [Sym('Q')], [Ref(0), Sym('>'), Ref(1)], [Sym('('), Ref(0), Sym('>'), Ref(1), Sym(')')]];
    GroupedImplicationStep3Found();
    GroupedImplicationStep3Substitution();
    SweepBy(Groups, ts, els, 0, 5, ts', els');
  }

  /** `(P>Q)`, rule 0 (propositions): 2 substitutions. */
  lemma GroupedImplicationAtoms()
    requires Admissible([Sym('('), Sym('P'), Sym('>'), Sym('Q'), Sym(')')], NoElements)
    ensures Admissible([Sym('('), Ref(0), Sym('>'), Ref(1), Sym(')')], [[Sym('P')], [Sym('Q')]])
    ensures Sweep(Atoms, [Sym('('), Sym('P'), Sym('>'), Sym('Q'), Sym(')')], NoElements) == Success(Flat([Sym('('), Ref(0), Sym('>'), Ref(1), Sym(')')], [[Sym('P')], [Sym('Q')]]))
  {
    var ts, els := [Sym('('), Ref(0), Sym('>'), Ref(1), Sym(')')], [[Sym('P')], [Sym('Q')]];
    GroupedImplicationStep1();
    GroupedImplicationStep2();
    GroupedImplicationDone();
    SweepStops(Atoms, ts, els);
  }

  /** `(P>Q)`, rule 1 (groups): 1 substitution. */
  lemma GroupedImplicationGroups()
    requires Admissible([Sym('('), Ref(0), Sym('>'), Ref(1), Sym(')')], [[Sym('P')], [Sym('Q')]])
    ensures Admissible([Ref(3)], [[Sym('P')], [Sym('Q')], [Ref(0), Sym('>'), Ref(1)], [Sym('('), Ref(0), Sym('>'), Ref(1), Sym(')')]])
    ensures Sweep(Groups, [Sym('('), Ref(0), Sym('>'), Ref(1), Sym(')')], [[Sym('P')], [Sym('Q')]]) == Success(Flat([Ref(3)], [[Sym('P')], [Sym('Q')], [Ref(0), Sym('>'), Ref(1)], [Sym('('), Ref(0), Sym('>'), Ref(1), Sym(')')]]))
  {
    var ts, els := [Ref(3)], [[Sym('P')], [Sym('Q')], [Ref(0), Sym('>'), Ref(1)], [Sym('('), Ref(0), Sym('>'), Ref(1), Sym(')')]];
    GroupedImplicationStep3();
    GroupedImplicationDone();
    SweepStops(Groups, ts, els);
  }

  /** `(P>Q)`, rule 2 (negations): nothing matches. */
  lemma GroupedImplicationNegations()
    requires Admissible([Ref(3)], [[Sym('P')], [Sym('Q')], [Ref(0), Sym('>'), Ref(1)], [Sym('('), Ref(0), Sym('>'), Ref(1), Sym(')')]])
    ensures Admissible([Ref(3)], [[Sym('P')], [Sym('Q')], [Ref(0), Sym('>'), Ref(1)], [Sym('('), Ref(0), Sym('>'), Ref(1), Sym(')')]])
    ensures Sweep(Negations, [Ref(3)], [[Sym('P')], [Sym('Q')], [Ref(0), Sym('>'), Ref(1)], [Sym('('), Ref(0), Sym('>'), Ref(1), Sym(')')]]) == Success(Flat([Ref(3)], [[Sym('P')], [Sym('Q')], [Ref(0), Sym('>'), Ref(1)], [Sym('('), Ref(0), Sym('>'), Ref(1), Sym(')')]]))
  {
    var ts, els := [Ref(3)], [[Sym('P')], [Sym('Q')], [Ref(0), Sym('>'), Ref(1)], [Sym('('), Ref(0), Sym('>'), Ref(1), Sym(')')]];
    GroupedImplicationDone();
    SweepStops(Negations, ts, els);
  }

  /** `(P>Q)`, rule 3 (conjunctions and disjunctions): nothing matches. */
  lemma GroupedImplicationJunctions()
    requires Admissible([Ref(3)], [[Sym('P')], [Sym('Q')], [Ref(0), Sym('>'), Ref(1)], [Sym('('), Ref(0), Sym('>'), Ref(1), Sym(')')]])
    ensures Admissible([Ref(3)], [[Sym('P')], [Sym('Q')], [Ref(0), Sym('>'), Ref(1)], [Sym('('), Ref(0), Sym('>'), Ref(1), Sym(')')]])
    ensures Sweep(Junctions, [Ref(3)], [[Sym('P')], [Sym('Q')], [Ref(0), Sym('>'), Ref(1)], [Sym('('), Ref(0), Sym('>'), Ref(1), Sym(')')]]) == Success(Flat([Ref(3)], [[Sym('P')], [Sym('Q')], [Ref(0), Sym('>'), Ref(1)], [Sym('('), Ref(0), Sym('>'), Ref(1), Sym(')')]]))
  {
    var ts, els := [Ref(3)], [[Sym('P')], [Sym('Q')], [Ref(0), Sym('>'), Ref(1)], [Sym('('), Ref(0), Sym('>'), Ref(1), Sym(')')]];
    GroupedImplicationDone();
    SweepStops(Junctions, ts, els);
  }

  /** `(P>Q)`, rule 4 (implications): nothing matches. */
  lemma GroupedImplicationImplications()
    requires Admissible([Ref(3)], [[Sym('P')], [Sym('Q')], [Ref(0), Sym('>'), Ref(1)], [Sym('('), Ref(0), Sym('>'), Ref(1), Sym(')')]])
    ensures Admissible([Ref(3)], [[Sym('P')], [Sym('Q')], [Ref(0), Sym('>'), Ref(1)], [Sym('('), Ref(0), Sym('>'), Ref(1), Sym(')')]])
    ensures Sweep(Implications, [Ref(3)], [[Sym('P')], [Sym('Q')], [Ref(0), Sym('>'), Ref(1)], [Sym('('), Ref(0), Sym('>'), Ref(1), Sym(')')]]) == Success(Flat([Ref(3)], [[Sym('P')], [Sym('Q')], [Ref(0), Sym('>'), Ref(1)], [Sym('('), Ref(0), Sym('>'), Ref(1), Sym(')')]]))
  {
    var ts, els := [Ref(3)], [[Sym('P')], [Sym('Q')], [Ref(0), Sym('>'), Ref(1)], [Sym('('), Ref(0), Sym('>'), Ref(1), Sym(')')]];
    GroupedImplicationDone();
    SweepStops(Implications, ts, els);
  }

  /** `(P>Q)`: once each rule has been swept, nothing is left for it to match. */
  lemma GroupedImplicationDone()
    ensures FirstMatch(Atoms, [Sym('('), Ref(0), Sym('>'), Ref(1), Sym(')')], 0) == None
    ensures FirstMatch(Groups, [Ref(3)], 0) == None
    ensures FirstMatch(Negations, [Ref(3)], 0) == None
    ensures FirstMatch(Junctions, [Ref(3)], 0) == None
    ensures FirstMatch(Implications, [Ref(3)], 0) == None
  {
  }

  /** `(P>Q)` flattens to element 3. */
  lemma GroupedImplicationFlattens()
    ensures Flatten([Sym('('), Sym('P'), Sym('>'), Sym('Q'), Sym(')')], NoElements) == Success(Analysis([[Sym('P')], [Sym('Q')], [Ref(0), Sym('>'), Ref(1)], [Sym('('), Ref(0), Sym('>'), Ref(1), Sym(')')]], 3))
  {
    var ts, els := [Sym('('), Sym('P'), Sym('>'), Sym('Q'), Sym(')')], NoElements;
    var f1 := Flat([Sym('('), Ref(0), Sym('>'), Ref(1), Sym(')')], [[Sym('P')], [Sym('Q')]]);
    var f2 := Flat([Ref(3)], [[Sym('P')], [Sym('Q')], [Ref(0), Sym('>'), Ref(1)], [Sym('('), Ref(0), Sym('>'), Ref(1), Sym(')')]]);
    var f3 := Flat([Ref(3)], [[Sym('P')], [Sym('Q')], [Ref(0), Sym('>'), Ref(1)], [Sym('('), Ref(0), Sym('>'), Ref(1), Sym(')')]]);
    var f4 := Flat([Ref(3)], [[Sym('P')], [Sym('Q')], [Ref(0), Sym('>'), Ref(1)], [Sym('('), Ref(0), Sym('>'), Ref(1), Sym(')')]]);
    var f5 := Flat([Ref(3)], [[Sym('P')], [Sym('Q')], [Ref(0), Sym('>'), Ref(1)], [Sym('('), Ref(0), Sym('>'), Ref(1), Sym(')')]]);
    GroupedImplicationAtoms();
    GroupedImplicationGroups();
    GroupedImplicationNegations();
    GroupedImplicationJunctions();
    GroupedImplicationImplications();
    FlattenOfRules(ts, els, f1, f2, f3, f4, f5, 3);
  }


  // ---------------------------------------------------------------------
  // `(((P)))`
  // ---------------------------------------------------------------------

  /** In `(((P)))`, the content `0` of a group, rule 0 (propositions): nothing matches. */
  lemma TripleGroupGroup2Atoms()
    requires Admissible([Ref(0)], [[Sym('P')]])
    ensures Admissible([Ref(0)], [[Sym('P')]])
    ensures Sweep(Atoms, [Ref(0)], [[Sym('P')]]) == Success(Flat([Ref(0)], [[Sym('P')]]))
  {
    var ts, els := [Ref(0)], [[Sym('P')]];
    TripleGroupGroup2Done();
    SweepStops(Atoms, ts, els);
  }

  /** In `(((P)))`, the content `0` of a group, rule 1 (groups): nothing matches. */
  lemma TripleGroupGroup2Groups()
    requires Admissible([Ref(0)], [[Sym('P')]])
    ensures Admissible([Ref(0)], [[Sym('P')]])
    ensures Sweep(Groups, [Ref(0)], [[Sym('P')]]) == Success(Flat([Ref(0)], [[Sym('P')]]))
  {
    var ts, els := [Ref(0)], [[Sym('P')]];
    TripleGroupGroup2Done();
    SweepStops(Groups, ts, els);
  }

  /** In `(((P)))`, the content `0` of a group, rule 2 (negations): nothing matches. */
  lemma TripleGroupGroup2Negations()
    requires Admissible([Ref(0)], [[Sym('P')]])
    ensures Admissible([Ref(0)], [[Sym('P')]])
    ensures Sweep(Negations, [Ref(0)], [[Sym('P')]]) == Success(Flat([Ref(0)], [[Sym('P')]]))
  {
    var ts, els := [Ref(0)], [[Sym('P')]];
    TripleGroupGroup2Done();
    SweepStops(Negations, ts, els);
  }

  /** In `(((P)))`, the content `0` of a group, rule 3 (conjunctions and disjunctions): nothing matches. */
  lemma TripleGroupGroup2Junctions()
    requires Admissible([Ref(0)], [[Sym('P')]])
    ensures Admissible([Ref(0)], [[Sym('P')]])
    ensures Sweep(Junctions, [Ref(0)], [[Sym('P')]]) == Success(Flat([Ref(0)], [[Sym('P')]]))
  {
    var ts, els := [Ref(0)], [[Sym('P')]];
    TripleGroupGroup2Done();
    SweepStops(Junctions, ts, els);
  }

  /** In `(((P)))`, the content `0` of a group, rule 4 (implications): nothing matches. */
  lemma TripleGroupGroup2Implications()
    requires Admissible([Ref(0)], [[Sym('P')]])
    ensures Admissible([Ref(0)], [[Sym('P')]])
    ensures Sweep(Implications, [Ref(0)], [[Sym('P')]]) == Success(Flat([Ref(0)], [[Sym('P')]]))
  {
    var ts, els := [Ref(0)], [[Sym('P')]];
    TripleGroupGroup2Done();
    SweepStops(Implications, ts, els);
  }

  /** In `(((P)))`, the content `0` of a group: once each rule has been swept, nothing is left for it to match. */
  lemma TripleGroupGroup2Done()
    ensures FirstMatch(Atoms, [Ref(0)], 0) == None
    ensures FirstMatch(Groups, [Ref(0)], 0) == None
    ensures FirstMatch(Negations, [Ref(0)], 0) == None
    ensures FirstMatch(Junctions, [Ref(0)], 0) == None
    ensures FirstMatch(Implications, [Ref(0)], 0) == None
  {
  }

  /** In `(((P)))`, the content `0` of a group flattens to element 0. */
  lemma TripleGroupGroup2Flattens()
    requires Admissible([Ref(0)], [[Sym('P')]])
    ensures Flatten([Ref(0)], [[Sym('P')]]) == Success(Analysis([[Sym('P')]], 0))
  {
    var ts, els := [Ref(0)], [[Sym('P')]];
    var f1 := Flat([Ref(0)], [[Sym('P')]]);
    var f2 := Flat([Ref(0)], [[Sym('P')]]);
    var f3 := Flat([Ref(0)], [[Sym('P')]]);
    var f4 := Flat([Ref(0)], [[Sym('P')]]);
    var f5 := Flat([Ref(0)], [[Sym('P')]]);
    TripleGroupGroup2Atoms();
    TripleGroupGroup2Groups();
    TripleGroupGroup2Negations();
    TripleGroupGroup2Junctions();
    TripleGroupGroup2Implications();
    FlattenOfRules(ts, els, f1, f2, f3, f4, f5, 0);
  }

  /** In `(((P)))`, the content `1` of a group, rule 0 (propositions): nothing matches. */
  lemma TripleGroupGroup3Atoms()
    requires Admissible([Ref(1)], [[Sym('P')], [Sym('('), Sym('P'), Sym(')')]])
    ensures Admissible([Ref(1)], [[Sym('P')], [Sym('('), Sym('P'), Sym(')')]])
    ensures Sweep(Atoms, [Ref(1)], [[Sym('P')], [Sym('('), Sym('P'), Sym(')')]]) == Success(Flat([Ref(1)], [[Sym('P')], [Sym('('), Sym('P'), Sym(')')]]))
  {
    var ts, els := [Ref(1)], [[Sym('P')], [Sym('('), Sym('P'), Sym(')')]];
    TripleGroupGroup3Done();
    SweepStops(Atoms, ts, els);
  }

  /** In `(((P)))`, the content `1` of a group, rule 1 (groups): nothing matches. */
  lemma TripleGroupGroup3Groups()
    requires Admissible([Ref(1)], [[Sym('P')], [Sym('('), Sym('P'), Sym(')')]])
    ensures Admissible([Ref(1)], [[Sym('P')], [Sym('('), Sym('P'), Sym(')')]])
    ensures Sweep(Groups, [Ref(1)], [[Sym('P')], [Sym('('), Sym('P'), Sym(')')]]) == Success(Flat([Ref(1)], [[Sym('P')], [Sym('('), Sym('P'), Sym(')')]]))
  {
    var ts, els := [Ref(1)], [[Sym('P')], [Sym('('), Sym('P'), Sym(')')]];
    TripleGroupGroup3Done();
    SweepStops(Groups, ts, els);
  }

  /** In `(((P)))`, the content `1` of a group, rule 2 (negations): nothing matches. */
  lemma TripleGroupGroup3Negations()
    requires Admissible([Ref(1)], [[Sym('P')], [Sym('('), Sym('P'), Sym(')')]])
    ensures Admissible([Ref(1)], [[Sym('P')], [Sym('('), Sym('P'), Sym(')')]])
    ensures Sweep(Negations, [Ref(1)], [[Sym('P')], [Sym('('), Sym('P'), Sym(')')]]) == Success(Flat([Ref(1)], [[Sym('P')], [Sym('('), Sym('P'), Sym(')')]]))
  {
    var ts, els := [Ref(1)], [[Sym('P')], [Sym('('), Sym('P'), Sym(')')]];
    TripleGroupGroup3Done();
    SweepStops(Negations, ts, els);
  }

  /** In `(((P)))`, the content `1` of a group, rule 3 (conjunctions and disjunctions): nothing matches. */
  lemma TripleGroupGroup3Junctions()
    requires Admissible([Ref(1)], [[Sym('P')], [Sym('('), Sym('P'), Sym(')')]])
    ensures Admissible([Ref(1)], [[Sym('P')], [Sym('('), Sym('P'), Sym(')')]])
    ensures Sweep(Junctions, [Ref(1)], [[Sym('P')], [Sym('('), Sym('P'), Sym(')')]]) == Success(Flat([Ref(1)], [[Sym('P')], [Sym('('), Sym('P'), Sym(')')]]))
  {
    var ts, els := [Ref(1)], [[Sym('P')], [Sym('('), Sym('P'), Sym(')')]];
    TripleGroupGroup3Done();
    SweepStops(Junctions, ts, els);
  }

  /** In `(((P)))`, the content `1` of a group, rule 4 (implications): nothing matches. */
  lemma TripleGroupGroup3Implications()
    requires Admissible([Ref(1)], [[Sym('P')], [Sym('('), Sym('P'), Sym(')')]])
    ensures Admissible([Ref(1)], [[Sym('P')], [Sym('('), Sym('P'), Sym(')')]])
    ensures Sweep(Implications, [Ref(1)], [[Sym('P')], [Sym('('), Sym('P'), Sym(')')]]) == Success(Flat([Ref(1)], [[Sym('P')], [Sym('('), Sym('P'), Sym(')')]]))
  {
    var ts, els := [Ref(1)], [[Sym('P')], [Sym('('), Sym('P'), Sym(')')]];
    TripleGroupGroup3Done();
    SweepStops(Implications, ts, els);
  }

  /** In `(((P)))`, the content `1` of a group: once each rule has been swept, nothing is left for it to match. */
  lemma TripleGroupGroup3Done()
    ensures FirstMatch(Atoms, [Ref(1)], 0) == None
    ensures FirstMatch(Groups, [Ref(1)], 0) == None
    ensures FirstMatch(Negations, [Ref(1)], 0) == None
    ensures FirstMatch(Junctions, [Ref(1)], 0) == None
    ensures FirstMatch(Implications, [Ref(1)], 0) == None
  {
  }

  /** In `(((P)))`, the content `1` of a group flattens to element 1. */
  lemma TripleGroupGroup3Flattens()
    requires Admissible([Ref(1)], [[Sym('P')], [Sym('('), Sym('P'), Sym(')')]])
    ensures Flatten([Ref(1)], [[Sym('P')], [Sym('('), Sym('P'), Sym(')')]]) == Success(Analysis([[Sym('P')], [Sym('('), Sym('P'), Sym(')')]], 1))
  {
    var ts, els := [Ref(1)], [[Sym('P')], [Sym('('), Sym('P'), Sym(')')]];
    var f1 := Flat([Ref(1)], [[Sym('P')], [Sym('('), Sym('P'), Sym(')')]]);
    var f2 := Flat([Ref(1)], [[Sym('P')], [Sym('('), Sym('P'), Sym(')')]]);
    var f3 := Flat([Ref(1)], [[Sym('P')], [Sym('('), Sym('P'), Sym(')')]]);
    var f4 := Flat([Ref(1)], [[Sym('P')], [Sym('('), Sym('P'), Sym(')')]]);
    var f5 := Flat([Ref(1)], [[Sym('P')], [Sym('('), Sym('P'), Sym(')')]]);
    TripleGroupGroup3Atoms();
    TripleGroupGroup3Groups();
    TripleGroupGroup3Negations();
    TripleGroupGroup3Junctions();
    TripleGroupGroup3Implications();
    FlattenOfRules(ts, els, f1, f2, f3, f4, f5, 1);
  }

  /** In `(((P)))`, the content `2` of a group, rule 0 (propositions): nothing matches. */
  lemma TripleGroupGroup4Atoms()
    requires Admissible([Ref(2)], [[Sym('P')], [Sym('('), Sym('P'), Sym(')')], [Sym('('), Sym('('), Sym('P'), Sym(')'), Sym(')')]])
    ensures Admissible([Ref(2)], [[Sym('P')], [Sym('('), Sym('P'), Sym(')')], [Sym('('), Sym('('), Sym('P'), Sym(')'), Sym(')')]])
    ensures Sweep(Atoms, [Ref(2)], [[Sym('P')], [Sym('('), Sym('P'), Sym(')')], [Sym('('), Sym('('), Sym('P'), Sym(')'), Sym(')')]]) == Success(Flat([Ref(2)], [[Sym('P')], [Sym('('), Sym('P'), Sym(')')], [Sym('('), Sym('('), Sym('P'), Sym(')'), Sym(')')]]))
  {
    var ts, els := [Ref(2)], [[Sym('P')], [Sym('('), Sym('P'), Sym(')')], [Sym('('), Sym('('), Sym('P'), Sym(')'), Sym(')')]];
    TripleGroupGroup4Done();
    SweepStops(Atoms, ts, els);
  }

  /** In `(((P)))`, the content `2` of a group, rule 1 (groups): nothing matches. */
  lemma TripleGroupGroup4Groups()
    requires Admissible([Ref(2)], [[Sym('P')], [Sym('('), Sym('P'), Sym(')')], [Sym('('), Sym('('), Sym('P'), Sym(')'), Sym(')')]])
    ensures Admissible([Ref(2)], [[Sym('P')], [Sym('('), Sym('P'), Sym(')')], [Sym('('), Sym('('), Sym('P'), Sym(')'), Sym(')')]])
    ensures Sweep(Groups, [Ref(2)], [[Sym('P')], [Sym('('), Sym('P'), Sym(')')], [Sym('('), Sym('('), Sym('P'), Sym(')'), Sym(')')]]) == Success(Flat([Ref(2)], [[Sym('P')], [Sym('('), Sym('P'), Sym(')')], [Sym('('), Sym('('), Sym('P'), Sym(')'), Sym(')')]]))
  {
    var ts, els := [Ref(2)], [[Sym('P')], [Sym('('), Sym('P'), Sym(')')], [Sym('('), Sym('('), Sym('P'), Sym(')'), Sym(')')]];
    TripleGroupGroup4Done();
    SweepStops(Groups, ts, els);
  }

  /** In `(((P)))`, the content `2` of a group, rule 2 (negations): nothing matches. */
  lemma TripleGroupGroup4Negations()
    requires Admissible([Ref(2)], [[Sym('P')], [Sym('('), Sym('P'), Sym(')')], [Sym('('), Sym('('), Sym('P'), Sym(')'), Sym(')')]])
    ensures Admissible([Ref(2)], [[Sym('P')], [Sym('('), Sym('P'), Sym(')')], [Sym('('), Sym('('), Sym('P'), Sym(')'), Sym(')')]])
    ensures Sweep(Negations, [Ref(2)], [[Sym('P')], [Sym('('), Sym('P'), Sym(')')], [Sym('('), Sym('('), Sym('P'), Sym(')'), Sym(')')]]) == Success(Flat([Ref(2)], [[Sym('P')], [Sym('('), Sym('P'), Sym(')')], [Sym('('), Sym('('), Sym('P'), Sym(')'), Sym(')')]]))
  {
    var ts, els := [Ref(2)], [[Sym('P')], [Sym('('), Sym('P'), Sym(')')], [Sym('('), Sym('('), Sym('P'), Sym(')'), Sym(')')]];
    TripleGroupGroup4Done();
    SweepStops(Negations, ts, els);
  }

  /** In `(((P)))`, the content `2` of a group, rule 3 (conjunctions and disjunctions): nothing matches. */
  lemma TripleGroupGroup4Junctions()
    requires Admissible([Ref(2)], [[Sym('P')], [Sym('('), Sym('P'), Sym(')')], [Sym('('), Sym('('), Sym('P'), Sym(')'), Sym(')')]])
    ensures Admissible([Ref(2)], [[Sym('P')], [Sym('('), Sym('P'), Sym(')')], [Sym('('), Sym('('), Sym('P'), Sym(')'), Sym(')')]])
    ensures Sweep(Junctions, [Ref(2)], [[Sym('P')], [Sym('('), Sym('P'), Sym(')')], [Sym('('), Sym('('), Sym('P'), Sym(')'), Sym(')')]]) == Success(Flat([Ref(2)], [[Sym('P')], [Sym('('), Sym('P'), Sym(')')], [Sym('('), Sym('('), Sym('P'), Sym(')'), Sym(')')]]))
  {
    var ts, els := [Ref(2)], [[Sym('P')], [Sym('('), Sym('P'), Sym(')')], [Sym('('), Sym('('), Sym('P'), Sym(')'), Sym(')')]];
    TripleGroupGroup4Done();
    SweepStops(Junctions, ts, els);
  }

  /** In `(((P)))`, the content `2` of a group, rule 4 (implications): nothing matches. */
  lemma TripleGroupGroup4Implications()
    requires Admissible([Ref(2)], [[Sym('P')], [Sym('('), Sym('P'), Sym(')')], [Sym('('), Sym('('), Sym('P'), Sym(')'), Sym(')')]])
    ensures Admissible([Ref(2)], [[Sym('P')], [Sym('('), Sym('P'), Sym(')')], [Sym('('), Sym('('), Sym('P'), Sym(')'), Sym(')')]])
    ensures Sweep(Implications, [Ref(2)], [[Sym('P')], [Sym('('), Sym('P'), Sym(')')], [Sym('('), Sym('('), Sym('P'), Sym(')'), Sym(')')]]) == Success(Flat([Ref(2)], [[Sym('P')], [Sym('('), Sym('P'), Sym(')')], [Sym('('), Sym('('), Sym('P'), Sym(')'), Sym(')')]]))
  {
    var ts, els := [Ref(2)], [[Sym('P')], [Sym('('), Sym('P'), Sym(')')], [Sym('('), Sym('('), Sym('P'), Sym(')'), Sym(')')]];
    TripleGroupGroup4Done();
    SweepStops(Implications, ts, els);
  }

  /** In `(((P)))`, the content `2` of a group: once each rule has been swept, nothing is left for it to match. */
  lemma TripleGroupGroup4Done()
    ensures FirstMatch(Atoms, [Ref(2)], 0) == None
    ensures FirstMatch(Groups, [Ref(2)], 0) == None
    ensures FirstMatch(Negations, [Ref(2)], 0) == None
    ensures FirstMatch(Junctions, [Ref(2)], 0) == None
    ensures FirstMatch(Implications, [Ref(2)], 0) == None
  {
  }

  /** In `(((P)))`, the content `2` of a group flattens to element 2. */
  lemma TripleGroupGroup4Flattens()
    requires Admissible([Ref(2)], [[Sym('P')], [Sym('('), Sym('P'), Sym(')')], [Sym('('), Sym('('), Sym('P'), Sym(')'), Sym(')')]])
    ensures Flatten([Ref(2)], [[Sym('P')], [Sym('('), Sym('P'), Sym(')')], [Sym('('), Sym('('), Sym('P'), Sym(')'), Sym(')')]]) == Success(Analysis([[Sym('P')], [Sym('('), Sym('P'), Sym(')')], [Sym('('), Sym('('), Sym('P'), Sym(')'), Sym(')')]], 2))
  {
    var ts, els := [Ref(2)], [[Sym('P')], [Sym('('), Sym('P'), Sym(')')], [Sym('('), Sym('('), Sym('P'), Sym(')'), Sym(')')]];
    var f1 := Flat([Ref(2)], [[Sym('P')], [Sym('('), Sym('P'), Sym(')')], [Sym('('), Sym('('), Sym('P'), Sym(')'), Sym(')')]]);
    var f2 := Flat([Ref(2)], [[Sym('P')], [Sym('('), Sym('P'), Sym(')')], [Sym('('), Sym('('), Sym('P'), Sym(')'), Sym(')')]]);
    var f3 := Flat([Ref(2)], [[Sym('P')], [Sym('('), Sym('P'), Sym(')')], [Sym('('), Sym('('), Sym('P'), Sym(')'), Sym(')')]]);
    var f4 := Flat([Ref(2)], [[Sym('P')], [Sym('('), Sym('P'), Sym(')')], [Sym('('), Sym('('), Sym('P'), Sym(')'), Sym(')')]]);
    var f5 := Flat([Ref(2)], [[Sym('P')], [Sym('('), Sym('P'), Sym(')')], [Sym('('), Sym('('), Sym('P'), Sym(')'), Sym(')')]]);
    TripleGroupGroup4Atoms();
    TripleGroupGroup4Groups();
    TripleGroupGroup4Negations();
    TripleGroupGroup4Junctions();
    TripleGroupGroup4Implications();
    FlattenOfRules(ts, els, f1, f2, f3, f4, f5, 2);
  }

  /** `(((P)))`, propositions: the leftmost match is `P`, at 3; it is new and becomes element 0. */
  lemma TripleGroupStep1Found()
    ensures FirstMatch(Atoms, [Sym('('), Sym('('), Sym('('), Sym('P'), Sym(')'), Sym(')'), Sym(')')], 0) == Some(3)
    ensures MatchLength(Atoms, [Sym('('), Sym('('), Sym('('), Sym('P'), Sym(')'), Sym(')'), Sym(')')], 3) == 1
    ensures [Sym('('), Sym('('), Sym('('), Ref(0), Sym(')'), Sym(')'), Sym(')')] == [Sym('('), Sym('('), Sym('('), Sym('P'), Sym(')'), Sym(')'), Sym(')')][..3] + [Ref(0)] + [Sym('('), Sym('('), Sym('('), Sym('P'), Sym(')'), Sym(')'), Sym(')')][4..]
    ensures [Sym('('), Sym('('), Sym('('), Sym('P'), Sym(')'), Sym(')'), Sym(')')][3..4] == [Sym('P')]
    ensures Intern(NoElements, [Sym('P')]).0 == [[Sym('P')]]
    ensures Intern(NoElements, [Sym('P')]).1 == 0
  {
  }

  /** `(((P)))`, propositions: `P` is new and becomes element 0. */
  lemma TripleGroupStep1()
    requires Admissible([Sym('('), Sym('('), Sym('('), Sym('P'), Sym(')'), Sym(')'), Sym(')')], NoElements)
    ensures Admissible([Sym('('), Sym('('), Sym('('), Ref(0), Sym(')'), Sym(')'), Sym(')')], [[Sym('P')]])
    ensures Sweep(Atoms, [Sym('('), Sym('('), Sym('('), Sym('P'), Sym(')'), Sym(')'), Sym(')')], NoElements) == Sweep(Atoms, [Sym('('), Sym('('), Sym('('), Ref(0), Sym(')'), Sym(')'), Sym(')')], [[Sym('P')]])
  {
    var ts, els, ts', els' := [Sym('('), Sym('('), Sym('('), Sym('P'), Sym(')'), Sym(')'), Sym(')')], NoElements, [Sym('('), Sym('('), Sym('('), Ref(0), Sym(')'), Sym(')'), Sym(')')], [[Sym('P')]];
    TripleGroupStep1Found();
    SweepStep(Atoms, ts, els, 3, 1, 0, ts', els');
  }

  /** `(((P)))`, groups: the leftmost match is `(0)`, at 2. */
  lemma TripleGroupStep2Found()
    ensures FirstMatch(Groups, [Sym('('), Sym('('), Sym('('), Ref(0), Sym(')'), Sym(')'), Sym(')')], 0) == Some(2)
    ensures MatchLength(Groups, [Sym('('), Sym('('), Sym('('), Ref(0), Sym(')'), Sym(')'), Sym(')')], 2) == 3
    ensures [Sym('('), Sym('('), Ref(1), Sym(')'), Sym(')')] == [Sym('('), Sym('('), Sym('('), Ref(0), Sym(')'), Sym(')'), Sym(')')][..2] + [Ref(1)] + [Sym('('), Sym('('), Sym('('), Ref(0), Sym(')'), Sym(')'), Sym(')')][5..]
    ensures [Sym('('), Sym('('), Sym('('), Ref(0), Sym(')'), Sym(')'), Sym(')')][3..4] == [Ref(0)]
  {
  }

  /** `(((P)))`: the group element `(P)` is new and becomes element 1. */
  lemma TripleGroupStep2Interned()
    ensures 0 < |[[Sym('P')]]| && [[Sym('P')]][0] == [Sym('P')]
    ensures Intern([[Sym('P')]], [Sym('(')] + [Sym('P')] + [Sym(')')]).0 == [[Sym('P')], [Sym('('), Sym('P'), Sym(')')]]
    ensures Intern([[Sym('P')]], [Sym('(')] + [Sym('P')] + [Sym(')')]).1 == 1
  {
    assert [Sym('(')] + [Sym('P')] + [Sym(')')] == [Sym('('), Sym('P'), Sym(')')];
    var els, e := [[Sym('P')]], [Sym('('), Sym('P'), Sym(')')];
    assert |els[0]| != |e|;
  }

  /** `(((P)))`, groups: the group at 2 becomes element 1. */
  lemma TripleGroupStep2Substitution()
    requires Admissible([Sym('('), Sym('('), Sym('('), Ref(0), Sym(')'), Sym(')'), Sym(')')], [[Sym('P')]])
    ensures Substitute(Groups, [Sym('('), Sym('('), Sym('('), Ref(0), Sym(')'), Sym(')'), Sym(')')], [[Sym('P')]], 2, 3) == Success(Flat([Sym('('), Sym('('), Ref(1), Sym(')'), Sym(')')], [[Sym('P')], [Sym('('), Sym('P'), Sym(')')]]))
  {
    var ts, els, content := [Sym('('), Sym('('), Sym('('), Ref(0), Sym(')'), Sym(')'), Sym(')')], [[Sym('P')]], [Ref(0)];
    var inner, body := [[Sym('P')]], [Sym('P')];
    var ts', els' := [Sym('('), Sym('('), Ref(1), Sym(')'), Sym(')')], [[Sym('P')], [Sym('('), Sym('P'), Sym(')')]];
    TripleGroupStep2Found();
    TripleGroupGroup2Flattens();
    TripleGroupStep2Interned();
    GroupSubstitution(ts, els, 2, 3, content, inner, 0, body, 1, ts', els');
  }

  /** `(((P)))`, groups: `(0)` `(P)` is new and becomes element 1. */
  lemma TripleGroupStep2()
    requires Admissible([Sym('('), Sym('('), Sym('('), Ref(0), Sym(')'), Sym(')'), Sym(')')], [[Sym('P')]])
    ensures Admissible([Sym('('), Sym('('), Ref(1), Sym(')'), Sym(')')], [[Sym('P')], [Sym('('), Sym('P'), Sym(')')]])
    ensures Sweep(Groups, [Sym('('), Sym('('), Sym('('), Ref(0), Sym(')'), Sym(')'), Sym(')')], [[Sym('P')]]) == Sweep(Groups, [Sym('('), Sym('('), Ref(1), Sym(')'), Sym(')')], [[Sym('P')], [Sym('('), Sym('P'), Sym(')')]])
  {
    var ts, els, ts', els' := [Sym('('), Sym('('), Sym('('), Ref(0), Sym(')'), Sym(')'), Sym(')')], [[Sym('P')]], [Sym('('), Sym('('), Ref(1), Sym(')'), Sym(')')], [[Sym('P')], [Sym('('), Sym('P'), Sym(')')]];
    TripleGroupStep2Found();
    TripleGroupStep2Substitution();
    SweepBy(Groups, ts, els, 2, 3, ts', els');
  }

  /** `(((P)))`, groups: the leftmost match is `(1)`, at 1. */
  lemma TripleGroupStep3Found()
    ensures FirstMatch(Groups, [Sym('('), Sym('('), Ref(1), Sym(')'), Sym(')')], 0) == Some(1)
    ensures MatchLength(Groups, [Sym('('), Sym('('), Ref(1), Sym(')'), Sym(')')], 1) == 3
    ensures [Sym('('), Ref(2), Sym(')')] == [Sym('('), Sym('('), Ref(1), Sym(')'), Sym(')')][..1] + [Ref(2)] + [Sym('('), Sym('('), Ref(1), Sym(')'), Sym(')')][4..]
    ensures [Sym('('), Sym('('), Ref(1), Sym(')'), Sym(')')][2..3] == [Ref(1)]
  {
  }

  /** `(((P)))`: the group element `((P))` is new and becomes element 2. */
  lemma TripleGroupStep3Interned()
    ensures 1 < |[[Sym('P')], [Sym('('), Sym('P'), Sym(')')]]| && [[Sym('P')], [Sym('('), Sym('P'), Sym(')')]][1] == [Sym('('), Sym('P'), Sym(')')]
    ensures Intern([[Sym('P')], [Sym('('), Sym('P'), Sym(')')]], [Sym('(')] + [Sym('('), Sym('P'), Sym(')')] + [Sym(')')]).0 == [[Sym('P')], [Sym('('), Sym('P'), Sym(')')], [Sym('('), Sym('('), Sym('P'), Sym(')'), Sym(')')]]
    ensures Intern([[Sym('P')], [Sym('('), Sym('P'), Sym(')')]], [Sym('(')] + [Sym('('), Sym('P'), Sym(')')] + [Sym(')')]).1 == 2
  {
    assert [Sym('(')] + [Sym('('), Sym('P'), Sym(')')] + [Sym(')')] == [Sym('('), Sym('('), Sym('P'), Sym(')'), Sym(')')];
    var els, e := [[Sym('P')], [Sym('('), Sym('P'), Sym(')')]], [Sym('('), Sym('('), Sym('P'), Sym(')'), Sym(')')];
    assert |els[0]| != |e|;
    assert |els[1]| != |e|;
  }

  /** `(((P)))`, groups: the group at 1 becomes element 2. */
  lemma TripleGroupStep3Substitution()
    requires Admissible([Sym('('), Sym('('), Ref(1), Sym(')'), Sym(')')], [[Sym('P')], [Sym('('), Sym('P'), Sym(')')]])
    ensures Substitute(Groups, [Sym('('), Sym('('), Ref(1), Sym(')'), Sym(')')], [[Sym('P')], [Sym('('), Sym('P'), Sym(')')]], 1, 3) == Success(Flat([Sym('('), Ref(2), Sym(')')], [[Sym('P')], [Sym('('), Sym('P'), Sym(')')], [Sym('('), Sym('('), Sym('P'), Sym(')'), Sym(')')]]))
  {
    var ts, els, content := [Sym('('), Sym('('), Ref(1), Sym(')'), Sym(')')], [[Sym('P')], [Sym('('), Sym('P'), Sym(')')]], [Ref(1)];
    var inner, body := [[Sym('P')], [Sym('('), Sym('P'), Sym(')')]], [Sym('('), Sym('P'), Sym(')')];
    var ts', els' := [Sym('('), Ref(2), Sym(')')], [[Sym('P')], [Sym('('), Sym('P'), Sym(')')], [Sym('('), Sym('('), Sym('P'), Sym(')'), Sym(')')]];
    TripleGroupStep3Found();
    TripleGroupGroup3Flattens();
    TripleGroupStep3Interned();
    GroupSubstitution(ts, els, 1, 3, content, inner, 1, body, 2, ts', els');
  }

  /** `(((P)))`, groups: `(1)` `((P))` is new and becomes element 2. */
  lemma TripleGroupStep3()
    requires Admissible([Sym('('), Sym('('), Ref(1), Sym(')'), Sym(')')], [[Sym('P')], [Sym('('), Sym('P'), Sym(')')]])
    ensures Admissible([Sym('('), Ref(2), Sym(')')], [[Sym('P')], [Sym('('), Sym('P'), Sym(')')], [Sym('('), Sym('('), Sym('P'), Sym(')'), Sym(')')]])
    ensures Sweep(Groups, [Sym('('), Sym('('), Ref(1), Sym(')'), Sym(')')], [[Sym('P')], [Sym('('), Sym('P'), Sym(')')]]) == Sweep(Groups, [Sym('('), Ref(2), Sym(')')], [[Sym('P')], [Sym('('), Sym('P'), Sym(')')], [Sym('('), Sym('('), Sym('P'), Sym(')'), Sym(')')]])
  {
    var ts, els, ts', els' := [Sym('('), Sym('('), Ref(1), Sym(')'), Sym(')')], [[Sym('P')], [Sym('('), Sym('P'), Sym(')')]], [Sym('('), Ref(2), Sym(')')], [[Sym('P')], [Sym('('), Sym('P'), Sym(')')], [Sym('('), Sym('('), Sym('P'), Sym(')'), Sym(')')]];
    TripleGroupStep3Found();
    TripleGroupStep3Substitution();
    SweepBy(Groups, ts, els, 1, 3, ts', els');
  }

  /** `(((P)))`, groups: the leftmost match is `(2)`, at 0. */
  lemma TripleGroupStep4Found()
    ensures FirstMatch(Groups, [Sym('('), Ref(2), Sym(')')], 0) == Some(0)
    ensures MatchLength(Groups, [Sym('('), Ref(2), Sym(')')], 0) == 3
    ensures [Ref(3)] == [Sym('('), Ref(2), Sym(')')][..0] + [Ref(3)] + [Sym('('), Ref(2), Sym(')')][3..]
    ensures [Sym('('), Ref(2), Sym(')')][1..2] == [Ref(2)]
  {
  }

  /** `(((P)))`: the group element `(((P)))` is new and becomes element 3. */
  lemma TripleGroupStep4Interned()
    ensures 2 < |[[Sym('P')], [Sym('('), Sym('P'), Sym(')')], [Sym('('), Sym('('), Sym('P'), Sym(')'), Sym(')')]]| && [[Sym('P')], [Sym('('), Sym('P'), Sym(')')], [Sym('('), Sym('('), Sym('P'), Sym(')'), Sym(')')]][2] == [Sym('('), Sym('('), Sym('P'), Sym(')'), Sym(')')]
    ensures Intern([[Sym('P')], [Sym('('), Sym('P'), Sym(')')], [Sym('('), Sym('('), Sym('P'), Sym(')'), Sym(')')]], [Sym('(')] + [Sym('('), Sym('('), Sym('P'), Sym(')'), Sym(')')] + [Sym(')')]).0 == [[Sym('P')], [Sym('('), Sym('P'), Sym(')')], [Sym('('), Sym('('), Sym('P'), Sym(')'), Sym(')')], [Sym('('), Sym('('), Sym('('), Sym('P'), Sym(')'), Sym(')'), Sym(')')]]
    ensures Intern([[Sym('P')], [Sym('('), Sym('P'), Sym(')')], [Sym('('), Sym('('), Sym('P'), Sym(')'), Sym(')')]], [Sym('(')] + [Sym('('), Sym('('), Sym('P'), Sym(')'), Sym(')')] + [Sym(')')]).1 == 3
  {
    assert [Sym('(')] + [Sym('('), Sym('('), Sym('P'), Sym(')'), Sym(')')] + [Sym(')')] == [Sym('('), Sym('('), Sym('('), Sym('P'), Sym(')'), Sym(')'), Sym(')')];
    var els, e := [[Sym('P')], [Sym('('), Sym('P'), Sym(')')], [Sym('('), Sym('('), Sym('P'), Sym(')'), Sym(')')]], [Sym('('), Sym('('), Sym('('), Sym('P'), Sym(')'), Sym(')'), Sym(')')];
    assert |els[0]| != |e|;
    assert |els[1]| != |e|;
    assert |els[2]| != |e|;
  }

  /** `(((P)))`, groups: the group at 0 becomes element 3. */
  lemma TripleGroupStep4Substitution()
    requires Admissible([Sym('('), Ref(2), Sym(')')], [[Sym('P')], [Sym('('), Sym('P'), Sym(')')], [Sym('('), Sym('('), Sym('P'), Sym(')'), Sym(')')]])
    ensures Substitute(Groups, [Sym('('), Ref(2), Sym(')')], [[Sym('P')], [Sym('('), Sym('P'), Sym(')')], [Sym('('), Sym('('), Sym('P'), Sym(')'), Sym(')')]], 0, 3) == Success(Flat([Ref(3)], [[Sym('P')], [Sym('('), Sym('P'), Sym(')')], [Sym('('), Sym('('), Sym('P'), Sym(')'), Sym(')')], [Sym('('), Sym('('), Sym('('), Sym('P'), Sym(')'), Sym(')'), Sym(')')]]))
  {
    var ts, els, content := [Sym('('), Ref(2), Sym(')')], [[Sym('P')], [Sym('('), Sym('P'), Sym(')')], [Sym('('), Sym('('), Sym('P'), Sym(')'), Sym(')')]], [Ref(2)];
    var inner, body := [[Sym('P')], [Sym('('), Sym('P'), Sym(')')], [Sym('('), Sym('('), Sym('P'), Sym(')'), Sym(')')]], [Sym('('), Sym('('), Sym('P'), Sym(')'), Sym(')')];
    var ts', els' := [Ref(3)], [[Sym('P')], [Sym('('), Sym('P'), Sym(')')], [Sym('('), Sym('('), Sym('P'), Sym(')'), Sym(')')], [Sym('('), Sym('('), Sym('('), Sym('P'), Sym(')'), Sym(')'), Sym(')')]];
    TripleGroupStep4Found();
    TripleGroupGroup4Flattens();
    TripleGroupStep4Interned();
    GroupSubstitution(ts, els, 0, 3, content, inner, 2, body, 3, ts', els');
  }

  /** `(((P)))`, groups: `(2)` `(((P)))` is new and becomes element 3. */
  lemma TripleGroupStep4()
    requires Admissible([Sym('('), Ref(2), Sym(')')], [[Sym('P')], [Sym('('), Sym('P'), Sym(')')], [Sym('('), Sym('('), Sym('P'), Sym(')'), Sym(')')]])
    ensures Admissible([Ref(3)], [[Sym('P')], [Sym('('), Sym('P'), Sym(')')], [Sym('('), Sym('('), Sym('P'), Sym(')'), Sym(')')], [Sym('('), Sym('('), Sym('('), Sym('P'), Sym(')'), Sym(')'), Sym(')')]])
    ensures Sweep(Groups, [Sym('('), Ref(2), Sym(')')], [[Sym('P')], [Sym('('), Sym('P'), Sym(')')], [Sym('('), Sym('('), Sym('P'), Sym(')'), Sym(')')]]) == Sweep(Groups, [Ref(3)], [[Sym('P')], [Sym('('), Sym('P'), Sym(')')], [Sym('('), Sym('('), Sym('P'), Sym(')'), Sym(')')], [Sym('('), Sym('('), Sym('('), Sym('P'), Sym(')'), Sym(')'), Sym(')')]])
  {
    var ts, els, ts', els' := [Sym('('), Ref(2), Sym(')')], [[Sym('P')], [Sym('('), Sym('P'), Sym(')')], [Sym('('), Sym('('), Sym('P'), Sym(')'), Sym(')')]], [Ref(3)], [[Sym('P')], [Sym('('), Sym('P'), Sym(')')], [Sym('('), Sym('('), Sym('P'), Sym(')'), Sym(')')], [Sym('('), Sym('('), Sym('('), Sym('P'), Sym(')'), Sym(')'), Sym(')')]];
    TripleGroupStep4Found();
    TripleGroupStep4Substitution();
    SweepBy(Groups, ts, els, 0, 3, ts', els');
  }

  /** `(((P)))`, rule 0 (propositions): 1 substitution. */
  lemma TripleGroupAtoms()
    requires Admissible([Sym('('), Sym('('), Sym('('), Sym('P'), Sym(')'), Sym(')'), Sym(')')], NoElements)
    ensures Admissible([Sym('('), Sym('('), Sym('('), Ref(0), Sym(')'), Sym(')'), Sym(')')], [[Sym('P')]])
    ensures Sweep(Atoms, [Sym('('), Sym('('), Sym('('), Sym('P'), Sym(')'), Sym(')'), Sym(')')], NoElements) == Success(Flat([Sym('('), Sym('('), Sym('('), Ref(0), Sym(')'), Sym(')'), Sym(')')], [[Sym('P')]]))
  {
    var ts, els := [Sym('('), Sym('('), Sym('('), Ref(0), Sym(')'), Sym(')'), Sym(')')], [[Sym('P')]];
    TripleGroupStep1();
    TripleGroupDone();
    SweepStops(Atoms, ts, els);
  }

  /** `(((P)))`, rule 1 (groups): 3 substitutions. */
  lemma TripleGroupGroups()
    requires Admissible([Sym('('), Sym('('), Sym('('), Ref(0), Sym(')'), Sym(')'), Sym(')')], [[Sym('P')]])
    ensures Admissible([Ref(3)], [[Sym('P')], [Sym('('), Sym('P'), Sym(')')], [Sym('('), Sym('('), Sym('P'), Sym(')'), Sym(')')], [Sym('('), Sym('('), Sym('('), Sym('P'), Sym(')'), Sym(')'), Sym(')')]])
    ensures Sweep(Groups, [Sym('('), Sym('('), Sym('('), Ref(0), Sym(')'), Sym(')'), Sym(')')], [[Sym('P')]]) == Success(Flat([Ref(3)], [[Sym('P')], [Sym('('), Sym('P'), Sym(')')], [Sym('('), Sym('('), Sym('P'), Sym(')'), Sym(')')], [Sym('('), Sym('('), Sym('('), Sym('P'), Sym(')'), Sym(')'), Sym(')')]]))
  {
    var ts, els := [Ref(3)], [[Sym('P')], [Sym('('), Sym('P'), Sym(')')], [Sym('('), Sym('('), Sym('P'), Sym(')'), Sym(')')], [Sym('('), Sym('('), Sym('('), Sym('P'), Sym(')'), Sym(')'), Sym(')')]];
    TripleGroupStep2();
    TripleGroupStep3();
    TripleGroupStep4();
    TripleGroupDone();
    SweepStops(Groups, ts, els);
  }

  /** `(((P)))`, rule 2 (negations): nothing matches. */
  lemma TripleGroupNegations()
    requires Admissible([Ref(3)], [[Sym('P')], [Sym('('), Sym('P'), Sym(')')], [Sym('('), Sym('('), Sym('P'), Sym(')'), Sym(')')], [Sym('('), Sym('('), Sym('('), Sym('P'), Sym(')'), Sym(')'), Sym(')')]])
    ensures Admissible([Ref(3)], [[Sym('P')], [Sym('('), Sym('P'), Sym(')')], [Sym('('), Sym('('), Sym('P'), Sym(')'), Sym(')')], [Sym('('), Sym('('), Sym('('), Sym('P'), Sym(')'), Sym(')'), Sym(')')]])
    ensures Sweep(Negations, [Ref(3)], [[Sym('P')], [Sym('('), Sym('P'), Sym(')')], [Sym('('), Sym('('), Sym('P'), Sym(')'), Sym(')')], [Sym('('), Sym('('), Sym('('), Sym('P'), Sym(')'), Sym(')'), Sym(')')]]) == Success(Flat([Ref(3)], [[Sym('P')], [Sym('('), Sym('P'), Sym(')')], [Sym('('), Sym('('), Sym('P'), Sym(')'), Sym(')')], [Sym('('), Sym('('), Sym('('), Sym('P'), Sym(')'), Sym(')'), Sym(')')]]))
  {
    var ts, els := [Ref(3)], [[Sym('P')], [Sym('('), Sym('P'), Sym(')')], [Sym('('), Sym('('), Sym('P'), Sym(')'), Sym(')')], [Sym('('), Sym('('), Sym('('), Sym('P'), Sym(')'), Sym(')'), Sym(')')]];
    TripleGroupDone();
    SweepStops(Negations, ts, els);
  }

  /** `(((P)))`, rule 3 (conjunctions and disjunctions): nothing matches. */
  lemma TripleGroupJunctions()
    requires Admissible([Ref(3)], [[Sym('P')], [Sym('('), Sym('P'), Sym(')')], [Sym('('), Sym('('), Sym('P'), Sym(')'), Sym(')')], [Sym('('), Sym('('), Sym('('), Sym('P'), Sym(')'), Sym(')'), Sym(')')]])
    ensures Admissible([Ref(3)], [[Sym('P')], [Sym('('), Sym('P'), Sym(')')], [Sym('('), Sym('('), Sym('P'), Sym(')'), Sym(')')], [Sym('('), Sym('('), Sym('('), Sym('P'), Sym(')'), Sym(')'), Sym(')')]])
    ensures Sweep(Junctions, [Ref(3)], [[Sym('P')], [Sym('('), Sym('P'), Sym(')')], [Sym('('), Sym('('), Sym('P'), Sym(')'), Sym(')')], [Sym('('), Sym('('), Sym('('), Sym('P'), Sym(')'), Sym(')'), Sym(')')]]) == Success(Flat([Ref(3)], [[Sym('P')], [Sym('('), Sym('P'), Sym(')')], [Sym('('), Sym('('), Sym('P'), Sym(')'), Sym(')')], [Sym('('), Sym('('), Sym('('), Sym('P'), Sym(')'), Sym(')'), Sym(')')]]))
  {
    var ts, els := [Ref(3)], [[Sym('P')], [Sym('('), Sym('P'), Sym(')')], [Sym('('), Sym('('), Sym('P'), Sym(')'), Sym(')')], [Sym('('), Sym('('), Sym('('), Sym('P'), Sym(')'), Sym(')'), Sym(')')]];
    TripleGroupDone();
    SweepStops(Junctions, ts, els);
  }

  /** `(((P)))`, rule 4 (implications): nothing matches. */
  lemma TripleGroupImplications()
    requires Admissible([Ref(3)], [[Sym('P')], [Sym('('), Sym('P'), Sym(')')], [Sym('('), Sym('('), Sym('P'), Sym(')'), Sym(')')], [Sym('('), Sym('('), Sym('('), Sym('P'), Sym(')'), Sym(')'), Sym(')')]])
    ensures Admissible([Ref(3)], [[Sym('P')], [Sym('('), Sym('P'), Sym(')')], [Sym('('), Sym('('), Sym('P'), Sym(')'), Sym(')')], [Sym('('), Sym('('), Sym('('), Sym('P'), Sym(')'), Sym(')'), Sym(')')]])
    ensures Sweep(Implications, [Ref(3)], [[Sym('P')], [Sym('('), Sym('P'), Sym(')')], [Sym('('), Sym('('), Sym('P'), Sym(')'), Sym(')')], [Sym('('), Sym('('), Sym('('), Sym('P'), Sym(')'), Sym(')'), Sym(')')]]) == Success(Flat([Ref(3)], [[Sym('P')], [Sym('('), Sym('P'), Sym(')')], [Sym('('), Sym('('), Sym('P'), Sym(')'), Sym(')')], [Sym('('), Sym('('), Sym('('), Sym('P'), Sym(')'), Sym(')'), Sym(')')]]))
  {
    var ts, els := [Ref(3)], [[Sym('P')], [Sym('('), Sym('P'), Sym(')')], [Sym('('), Sym('('), Sym('P'), Sym(')'), Sym(')')], [Sym('('), Sym('('), Sym('('), Sym('P'), Sym(')'), Sym(')'), Sym(')')]];
    TripleGroupDone();
    SweepStops(Implications, ts, els);
  }

  /** `(((P)))`: once each rule has been swept, nothing is left for it to match. */
  lemma TripleGroupDone()
    ensures FirstMatch(Atoms, [Sym('('), Sym('('), Sym('('), Ref(0), Sym(')'), Sym(')'), Sym(')')], 0) == None
    ensures FirstMatch(Groups, [Ref(3)], 0) == None
    ensures FirstMatch(Negations, [Ref(3)], 0) == None
    ensures FirstMatch(Junctions, [Ref(3)], 0) == None
    ensures FirstMatch(Implications, [Ref(3)], 0) == None
  {
  }

  /** `(((P)))` flattens to element 3. */
  lemma TripleGroupFlattens()
    ensures Flatten([Sym('('), Sym('('), Sym('('), Sym('P'), Sym(')'), Sym(')'), Sym(')')], NoElements) == Success(Analysis([[Sym('P')], [Sym('('), Sym('P'), Sym(')')], [Sym('('), Sym('('), Sym('P'), Sym(')'), Sym(')')], [Sym('('), Sym('('), Sym('('), Sym('P'), Sym(')'), Sym(')'), Sym(')')]], 3))
  {
    var ts, els := [Sym('('), Sym('('), Sym('('), Sym('P'), Sym(')'), Sym(')'), Sym(')')], NoElements;
    var f1 := Flat([Sym('('), Sym('('), Sym('('), Ref(0), Sym(')'), Sym(')'), Sym(')')], [[Sym('P')]]);
    var f2 := Flat([Ref(3)], [[Sym('P')], [Sym('('), Sym('P'), Sym(')')], [Sym('('), Sym('('), Sym('P'), Sym(')'), Sym(')')], [Sym('('), Sym('('), Sym('('), Sym('P'), Sym(')'), Sym(')'), Sym(')')]]);
    var f3 := Flat([Ref(3)], [[Sym('P')], [Sym('('), Sym('P'), Sym(')')], [Sym('('), Sym('('), Sym('P'), Sym(')'), Sym(')')], [Sym('('), Sym('('), Sym('('), Sym('P'), Sym(')'), Sym(')'), Sym(')')]]);
    var f4 := Flat([Ref(3)], [[Sym('P')], [Sym('('), Sym('P'), Sym(')')], [Sym('('), Sym('('), Sym('P'), Sym(')'), Sym(')')], [Sym('('), Sym('('), Sym('('), Sym('P'), Sym(')'), Sym(')'), Sym(')')]]);
    var f5 := Flat([Ref(3)], [[Sym('P')], [Sym('('), Sym('P'), Sym(')')], [Sym('('), Sym('('), Sym('P'), Sym(')'), Sym(')')], [Sym('('), Sym('('), Sym('('), Sym('P'), Sym(')'), Sym(')'), Sym(')')]]);
    TripleGroupAtoms();
    TripleGroupGroups();
    TripleGroupNegations();
    TripleGroupJunctions();
    TripleGroupImplications();
    FlattenOfRules(ts, els, f1, f2, f3, f4, f5, 3);
  }


  // ---------------------------------------------------------------------
  // `(-(R))`
  // ---------------------------------------------------------------------

  /** In `(-(R))`, the content `0` of a group, rule 0 (propositions): nothing matches. */
  lemma GroupedNegationGroup2Atoms()
    requires Admissible([Ref(0)], [[Sym('R')]])
    ensures Admissible([Ref(0)], [[Sym('R')]])
    ensures Sweep(Atoms, [Ref(0)], [[Sym('R')]]) == Success(Flat([Ref(0)], [[Sym('R')]]))
  {
    var ts, els := [Ref(0)], [[Sym('R')]];
    GroupedNegationGroup2Done();
    SweepStops(Atoms, ts, els);
  }

  /** In `(-(R))`, the content `0` of a group, rule 1 (groups): nothing matches. */
  lemma GroupedNegationGroup2Groups()
    requires Admissible([Ref(0)], [[Sym('R')]])
    ensures Admissible([Ref(0)], [[Sym('R')]])
    ensures Sweep(Groups, [Ref(0)], [[Sym('R')]]) == Success(Flat([Ref(0)], [[Sym('R')]]))
  {
    var ts, els := [Ref(0)], [[Sym('R')]];
    GroupedNegationGroup2Done();
    SweepStops(Groups, ts, els);
  }

  /** In `(-(R))`, the content `0` of a group, rule 2 (negations): nothing matches. */
  lemma GroupedNegationGroup2Negations()
    requires Admissible([Ref(0)], [[Sym('R')]])
    ensures Admissible([Ref(0)], [[Sym('R')]])
    ensures Sweep(Negations, [Ref(0)], [[Sym('R')]]) == Success(Flat([Ref(0)], [[Sym('R')]]))
  {
    var ts, els := [Ref(0)], [[Sym('R')]];
    GroupedNegationGroup2Done();
    SweepStops(Negations, ts, els);
  }

  /** In `(-(R))`, the content `0` of a group, rule 3 (conjunctions and disjunctions): nothing matches. */
  lemma GroupedNegationGroup2Junctions()
    requires Admissible([Ref(0)], [[Sym('R')]])
    ensures Admissible([Ref(0)], [[Sym('R')]])
    ensures Sweep(Junctions, [Ref(0)], [[Sym('R')]]) == Success(Flat([Ref(0)], [[Sym('R')]]))
  {
    var ts, els := [Ref(0)], [[Sym('R')]];
    GroupedNegationGroup2Done();
    SweepStops(Junctions, ts, els);
  }

  /** In `(-(R))`, the content `0` of a group, rule 4 (implications): nothing matches. */
  lemma GroupedNegationGroup2Implications()
    requires Admissible([Ref(0)], [[Sym('R')]])
    ensures Admissible([Ref(0)], [[Sym('R')]])
    ensures Sweep(Implications, [Ref(0)], [[Sym('R')]]) == Success(Flat([Ref(0)], [[Sym('R')]]))
  {
    var ts, els := [Ref(0)], [[Sym('R')]];
    GroupedNegationGroup2Done();
    SweepStops(Implications, ts, els);
  }

  /** In `(-(R))`, the content `0` of a group: once each rule has been swept, nothing is left for it to match. */
  lemma GroupedNegationGroup2Done()
    ensures FirstMatch(Atoms, [Ref(0)], 0) == None
    ensures FirstMatch(Groups, [Ref(0)], 0) == None
    ensures FirstMatch(Negations, [Ref(0)], 0) == None
    ensures FirstMatch(Junctions, [Ref(0)], 0) == None
    ensures FirstMatch(Implications, [Ref(0)], 0) == None
  {
  }

  /** In `(-(R))`, the content `0` of a group flattens to element 0. */
  lemma GroupedNegationGroup2Flattens()
    requires Admissible([Ref(0)], [[Sym('R')]])
    ensures Flatten([Ref(0)], [[Sym('R')]]) == Success(Analysis([[Sym('R')]], 0))
  {
    var ts, els := [Ref(0)], [[Sym('R')]];
    var f1 := Flat([Ref(0)], [[Sym('R')]]);
    var f2 := Flat([Ref(0)], [[Sym('R')]]);
    var f3 := Flat([Ref(0)], [[Sym('R')]]);
    var f4 := Flat([Ref(0)], [[Sym('R')]]);
    var f5 := Flat([Ref(0)], [[Sym('R')]]);
    GroupedNegationGroup2Atoms();
    GroupedNegationGroup2Groups();
    GroupedNegationGroup2Negations();
    GroupedNegationGroup2Junctions();
    GroupedNegationGroup2Implications();
    FlattenOfRules(ts, els, f1, f2, f3, f4, f5, 0);
  }

  /** `(-(R))`, negations: the leftmost match is `-1`, at 0; it is new and becomes element 2. */
  lemma GroupedNegationStep4Found()
    ensures FirstMatch(Negations, [Sym('-'), Ref(1)], 0) == Some(0)
    ensures MatchLength(Negations, [Sym('-'), Ref(1)], 0) == 2
    ensures [Ref(2)] == [Sym('-'), Ref(1)][..0] + [Ref(2)] + [Sym('-'), Ref(1)][2..]
    ensures [Sym('-'), Ref(1)][0..2] == [Sym('-'), Ref(1)]
    ensures Intern([[Sym('R')], [Sym('('), Sym('R'), Sym(')')]], [Sym('-'), Ref(1)]).0 == [[Sym('R')], [Sym('('), Sym('R'), Sym(')')], [Sym('-'), Ref(1)]]
    ensures Intern([[Sym('R')], [Sym('('), Sym('R'), Sym(')')]], [Sym('-'), Ref(1)]).1 == 2
  {
    var els, e := [[Sym('R')], [Sym('('), Sym('R'), Sym(')')]], [Sym('-'), Ref(1)];
    assert |els[0]| != |e|;
    assert |els[1]| != |e|;
  }

  /** `(-(R))`, negations: `-1` is new and becomes element 2. */
  lemma GroupedNegationStep4()
    requires Admissible([Sym('-'), Ref(1)], [[Sym('R')], [Sym('('), Sym('R'), Sym(')')]])
    ensures Admissible([Ref(2)], [[Sym('R')], [Sym('('), Sym('R'), Sym(')')], [Sym('-'), Ref(1)]])
    ensures Sweep(Negations, [Sym('-'), Ref(1)], [[Sym('R')], [Sym('('), Sym('R'), Sym(')')]]) == Sweep(Negations, [Ref(2)], [[Sym('R')], [Sym('('), Sym('R'), Sym(')')], [Sym('-'), Ref(1)]])
  {
    var ts, els, ts', els' := [Sym('-'), Ref(1)], [[Sym('R')], [Sym('('), Sym('R'), Sym(')')]], [Ref(2)], [[Sym('R')], [Sym('('), Sym('R'), Sym(')')], [Sym('-'), Ref(1)]];
    GroupedNegationStep4Found();
    SweepStep(Negations, ts, els, 0, 2, 2, ts', els');
  }

  /** In `(-(R))`, the content `-1` of a group, rule 0 (propositions): nothing matches. */
  lemma GroupedNegationGroup3Atoms()
    requires Admissible([Sym('-'), Ref(1)], [[Sym('R')], [Sym('('), Sym('R'), Sym(')')]])
    ensures Admissible([Sym('-'), Ref(1)], [[Sym('R')], [Sym('('), Sym('R'), Sym(')')]])
    ensures Sweep(Atoms, [Sym('-'), Ref(1)], [[Sym('R')], [Sym('('), Sym('R'), Sym(')')]]) == Success(Flat([Sym('-'), Ref(1)], [[Sym('R')], [Sym('('), Sym('R'), Sym(')')]]))
  {
    var ts, els := [Sym('-'), Ref(1)], [[Sym('R')], [Sym('('), Sym('R'), Sym(')')]];
    GroupedNegationGroup3Done();
    SweepStops(Atoms, ts, els);
  }

  /** In `(-(R))`, the content `-1` of a group, rule 1 (groups): nothing matches. */
  lemma GroupedNegationGroup3Groups()
    requires Admissible([Sym('-'), Ref(1)], [[Sym('R')], [Sym('('), Sym('R'), Sym(')')]])
    ensures Admissible([Sym('-'), Ref(1)], [[Sym('R')], [Sym('('), Sym('R'), Sym(')')]])
    ensures Sweep(Groups, [Sym('-'), Ref(1)], [[Sym('R')], [Sym('('), Sym('R'), Sym(')')]]) == Success(Flat([Sym('-'), Ref(1)], [[Sym('R')], [Sym('('), Sym('R'), Sym(')')]]))
  {
    var ts, els := [Sym('-'), Ref(1)], [[Sym('R')], [Sym('('), Sym('R'), Sym(')')]];
    GroupedNegationGroup3Done();
    SweepStops(Groups, ts, els);
  }

  /** In `(-(R))`, the content `-1` of a group, rule 2 (negations): 1 substitution. */
  lemma GroupedNegationGroup3Negations()
    requires Admissible([Sym('-'), Ref(1)], [[Sym('R')], [Sym('('), Sym('R'), Sym(')')]])
    ensures Admissible([Ref(2)], [[Sym('R')], [Sym('('), Sym('R'), Sym(')')], [Sym('-'), Ref(1)]])
    ensures Sweep(Negations, [Sym('-'), Ref(1)], [[Sym('R')], [Sym('('), Sym('R'), Sym(')')]]) == Success(Flat([Ref(2)], [[Sym('R')], [Sym('('), Sym('R'), Sym(')')], [Sym('-'), Ref(1)]]))
  {
    var ts, els := [Ref(2)], [[Sym('R')], [Sym('('), Sym('R'), Sym(')')], [Sym('-'), Ref(1)]];
    GroupedNegationStep4();
    GroupedNegationGroup3Done();
    SweepStops(Negations, ts, els);
  }

  /** In `(-(R))`, the content `-1` of a group, rule 3 (conjunctions and disjunctions): nothing matches. */
  lemma GroupedNegationGroup3Junctions()
    requires Admissible([Ref(2)], [[Sym('R')], [Sym('('), Sym('R'), Sym(')')], [Sym('-'), Ref(1)]])
    ensures Admissible([Ref(2)], [[Sym('R')], [Sym('('), Sym('R'), Sym(')')], [Sym('-'), Ref(1)]])
    ensures Sweep(Junctions, [Ref(2)], [[Sym('R')], [Sym('('), Sym('R'), Sym(')')], [Sym('-'), Ref(1)]]) == Success(Flat([Ref(2)], [[Sym('R')], [Sym('('), Sym('R'), Sym(')')], [Sym('-'), Ref(1)]]))
  {
    var ts, els := [Ref(2)], [[Sym('R')], [Sym('('), Sym('R'), Sym(')')], [Sym('-'), Ref(1)]];
    GroupedNegationGroup3Done();
    SweepStops(Junctions, ts, els);
  }

  /** In `(-(R))`, the content `-1` of a group, rule 4 (implications): nothing matches. */
  lemma GroupedNegationGroup3Implications()
    requires Admissible([Ref(2)], [[Sym('R')], [Sym('('), Sym('R'), Sym(')')], [Sym('-'), Ref(1)]])
    ensures Admissible([Ref(2)], [[Sym('R')], [Sym('('), Sym('R'), Sym(')')], [Sym('-'), Ref(1)]])
    ensures Sweep(Implications, [Ref(2)], [[Sym('R')], [Sym('('), Sym('R'), Sym(')')], [Sym('-'), Ref(1)]]) == Success(Flat([Ref(2)], [[Sym('R')], [Sym('('), Sym('R'), Sym(')')], [Sym('-'), Ref(1)]]))
  {
    var ts, els := [Ref(2)], [[Sym('R')], [Sym('('), Sym('R'), Sym(')')], [Sym('-'), Ref(1)]];
    GroupedNegationGroup3Done();
    SweepStops(Implications, ts, els);
  }

  /** In `(-(R))`, the content `-1` of a group: once each rule has been swept, nothing is left for it to match. */
  lemma GroupedNegationGroup3Done()
    ensures FirstMatch(Atoms, [Sym('-'), Ref(1)], 0) == None
    ensures FirstMatch(Groups, [Sym('-'), Ref(1)], 0) == None
    ensures FirstMatch(Negations, [Ref(2)], 0) == None
    ensures FirstMatch(Junctions, [Ref(2)], 0) == None
    ensures FirstMatch(Implications, [Ref(2)], 0) == None
  {
  }

  /** In `(-(R))`, the content `-1` of a group flattens to element 2. */
  lemma GroupedNegationGroup3Flattens()
    requires Admissible([Sym('-'), Ref(1)], [[Sym('R')], [Sym('('), Sym('R'), Sym(')')]])
    ensures Flatten([Sym('-'), Ref(1)], [[Sym('R')], [Sym('('), Sym('R'), Sym(')')]]) == Success(Analysis([[Sym('R')], [Sym('('), Sym('R'), Sym(')')], [Sym('-'), Ref(1)]], 2))
  {
    var ts, els := [Sym('-'), Ref(1)], [[Sym('R')], [Sym('('), Sym('R'), Sym(')')]];
    var f1 := Flat([Sym('-'), Ref(1)], [[Sym('R')], [Sym('('), Sym('R'), Sym(')')]]);
    var f2 := Flat([Sym('-'), Ref(1)], [[Sym('R')], [Sym('('), Sym('R'), Sym(')')]]);
    var f3 := Flat([Ref(2)], [[Sym('R')], [Sym('('), Sym('R'), Sym(')')], [Sym('-'), Ref(1)]]);
    var f4 := Flat([Ref(2)], [[Sym('R')], [Sym('('), Sym('R'), Sym(')')], [Sym('-'), Ref(1)]]);
    var f5 := Flat([Ref(2)], [[Sym('R')], [Sym('('), Sym('R'), Sym(')')], [Sym('-'), Ref(1)]]);
    GroupedNegationGroup3Atoms();
    GroupedNegationGroup3Groups();
    GroupedNegationGroup3Negations();
    GroupedNegationGroup3Junctions();
    GroupedNegationGroup3Implications();
    FlattenOfRules(ts, els, f1, f2, f3, f4, f5, 2);
  }

  /** `(-(R))`, propositions: the leftmost match is `R`, at 3; it is new and becomes element 0. */
  lemma GroupedNegationStep1Found()
    ensures FirstMatch(Atoms, [Sym('('), Sym('-'), Sym('('), Sym('R'), Sym(')'), Sym(')')], 0) == Some(3)
    ensures MatchLength(Atoms, [Sym('('), Sym('-'), Sym('('), Sym('R'), Sym(')'), Sym(')')], 3) == 1
    ensures [Sym('('), Sym('-'), Sym('('), Ref(0), Sym(')'), Sym(')')] == [Sym('('), Sym('-'), Sym('('), Sym('R'), Sym(')'), Sym(')')][..3] + [Ref(0)] + [Sym('('), Sym('-'), Sym('('), Sym('R'), Sym(')'), Sym(')')][4..]
    ensures [Sym('('), Sym('-'), Sym('('), Sym('R'), Sym(')'), Sym(')')][3..4] == [Sym('R')]
    ensures Intern(NoElements, [Sym('R')]).0 == [[Sym('R')]]
    ensures Intern(NoElements, [Sym('R')]).1 == 0
  {
  }

  /** `(-(R))`, propositions: `R` is new and becomes element 0. */
  lemma GroupedNegationStep1()
    requires Admissible([Sym('('), Sym('-'), Sym('('), Sym('R'), Sym(')'), Sym(')')], NoElements)
    ensures Admissible([Sym('('), Sym('-'), Sym('('), Ref(0), Sym(')'), Sym(')')], [[Sym('R')]])
    ensures Sweep(Atoms, [Sym('('), Sym('-'), Sym('('), Sym('R'), Sym(')'), Sym(')')], NoElements) == Sweep(Atoms, [Sym('('), Sym('-'), Sym('('), Ref(0), Sym(')'), Sym(')')], [[Sym('R')]])
  {
    var ts, els, ts', els' := [Sym('('), Sym('-'), Sym('('), Sym('R'), Sym(')'), Sym(')')], NoElements, [Sym('('), Sym('-'), Sym('('), Ref(0), Sym(')'), Sym(')')], [[Sym('R')]];
    GroupedNegationStep1Found();
    SweepStep(Atoms, ts, els, 3, 1, 0, ts', els');
  }

  /** `(-(R))`, groups: the leftmost match is `(0)`, at 2. */
  lemma GroupedNegationStep2Found()
    ensures FirstMatch(Groups, [Sym('('), Sym('-'), Sym('('), Ref(0), Sym(')'), Sym(')')], 0) == Some(2)
    ensures MatchLength(Groups, [Sym('('), Sym('-'), Sym('('), Ref(0), Sym(')'), Sym(')')], 2) == 3
    ensures [Sym('('), Sym('-'), Ref(1), Sym(')')] == [Sym('('), Sym('-'), Sym('('), Ref(0), Sym(')'), Sym(')')][..2] + [Ref(1)] + [Sym('('), Sym('-'), Sym('('), Ref(0), Sym(')'), Sym(')')][5..]
    ensures [Sym('('), Sym('-'), Sym('('), Ref(0), Sym(')'), Sym(')')][3..4] == [Ref(0)]
  {
  }

  /** `(-(R))`: the group element `(R)` is new and becomes element 1. */
  lemma GroupedNegationStep2Interned()
    ensures 0 < |[[Sym('R')]]| && [[Sym('R')]][0] == [Sym('R')]
    ensures Intern([[Sym('R')]], [Sym('(')] + [Sym('R')] + [Sym(')')]).0 == [[Sym('R')], [Sym('('), Sym('R'), Sym(')')]]
    ensures Intern([[Sym('R')]], [Sym('(')] + [Sym('R')] + [Sym(')')]).1 == 1
  {
    assert [Sym('(')] + [Sym('R')] + [Sym(')')] == [Sym('('), Sym('R'), Sym(')')];
    var els, e := [[Sym('R')]], [Sym('('), Sym('R'), Sym(')')];
    assert |els[0]| != |e|;
  }

  /** `(-(R))`, groups: the group at 2 becomes element 1. */
  lemma GroupedNegationStep2Substitution()
    requires Admissible([Sym('('), Sym('-'), Sym('('), Ref(0), Sym(')'), Sym(')')], [[Sym('R')]])
    ensures Substitute(Groups, [Sym('('), Sym('-'), Sym('('), Ref(0), Sym(')'), Sym(')')], [[Sym('R')]], 2, 3) == Success(Flat([Sym('('), Sym('-'), Ref(1), Sym(')')], [[Sym('R')], [Sym('('), Sym('R'), Sym(')')]]))
  {
    var ts, els, content := [Sym('('), Sym('-'), Sym('('), Ref(0), Sym(')'), Sym(')')], [[Sym('R')]], [Ref(0)];
    var inner, body := [[Sym('R')]], [Sym('R')];
    var ts', els' := [Sym('('), Sym('-'), Ref(1), Sym(')')], [[Sym('R')], [Sym('('), Sym('R'), Sym(')')]];
    GroupedNegationStep2Found();
    GroupedNegationGroup2Flattens();
    GroupedNegationStep2Interned();
    GroupSubstitution(ts, els, 2, 3, content, inner, 0, body, 1, ts', els');
  }

  /** `(-(R))`, groups: `(0)` `(R)` is new and becomes element 1. */
  lemma GroupedNegationStep2()
    requires Admissible([Sym('('), Sym('-'), Sym('('), Ref(0), Sym(')'), Sym(')')], [[Sym('R')]])
    ensures Admissible([Sym('('), Sym('-'), Ref(1), Sym(')')], [[Sym('R')], [Sym('('), Sym('R'), Sym(')')]])
    ensures Sweep(Groups, [Sym('('), Sym('-'), Sym('('), Ref(0), Sym(')'), Sym(')')], [[Sym('R')]]) == Sweep(Groups, [Sym('('), Sym('-'), Ref(1), Sym(')')], [[Sym('R')], [Sym('('), Sym('R'), Sym(')')]])
  {
    var ts, els, ts', els' := [Sym('('), Sym('-'), Sym('('), Ref(0), Sym(')'), Sym(')')], [[Sym('R')]], [Sym('('), Sym('-'), Ref(1), Sym(')')], [[Sym('R')], [Sym('('), Sym('R'), Sym(')')]];
    GroupedNegationStep2Found();
    GroupedNegationStep2Substitution();
    SweepBy(Groups, ts, els, 2, 3, ts', els');
  }

  /** `(-(R))`, groups: the leftmost match is `(-1)`, at 0. */
  lemma GroupedNegationStep3Found()
    ensures FirstMatch(Groups, [Sym('('), Sym('-'), Ref(1), Sym(')')], 0) == Some(0)
    ensures MatchLength(Groups, [Sym('('), Sym('-'), Ref(1), Sym(')')], 0) == 4
    ensures [Ref(3)] == [Sym('('), Sym('-'), Ref(1), Sym(')')][..0] + [Ref(3)] + [Sym('('), Sym('-'), Ref(1), Sym(')')][4..]
    ensures [Sym('('), Sym('-'), Ref(1), Sym(')')][1..3] == [Sym('-'), Ref(1)]
  {
  }

  /** `(-(R))`: the group element `(-1)` is new and becomes element 3. */
  lemma GroupedNegationStep3Interned()
    ensures 2 < |[[Sym('R')], [Sym('('), Sym('R'), Sym(')')], [Sym('-'), Ref(1)]]| && [[Sym('R')], [Sym('('), Sym('R'), Sym(')')], [Sym('-'), Ref(1)]][2] == [Sym('-'), Ref(1)]
    ensures Intern([[Sym('R')], [Sym('('), Sym('R'), Sym(')')], [Sym('-'), Ref(1)]], [Sym('(')] + [Sym('-'), Ref(1)] + [Sym(')')]).0 == [[Sym('R')], [Sym('('), Sym('R'), Sym(')')], [Sym('-'), Ref(1)], [Sym('('), Sym('-'), Ref(1), Sym(')')]]
    ensures Intern([[Sym('R')], [Sym('('), Sym('R'), Sym(')')], [Sym('-'), Ref(1)]], [Sym('(')] + [Sym('-'), Ref(1)] + [Sym(')')]).1 == 3
  {
    assert [Sym('(')] + [Sym('-'), Ref(1)] + [Sym(')')] == [Sym('('), Sym('-'), Ref(1), Sym(')')];
    var els, e := [[Sym('R')], [Sym('('), Sym('R'), Sym(')')], [Sym('-'), Ref(1)]], [Sym('('), Sym('-'), Ref(1), Sym(')')];
    assert |els[0]| != |e|;
    assert |els[1]| != |e|;
    assert |els[2]| != |e|;
  }

  /** `(-(R))`, groups: the group at 0 becomes element 3. */
  lemma GroupedNegationStep3Substitution()
    requires Admissible([Sym('('), Sym('-'), Ref(1), Sym(')')], [[Sym('R')], [Sym('('), Sym('R'), Sym(')')]])
    ensures Substitute(Groups, [Sym('('), Sym('-'), Ref(1), Sym(')')], [[Sym('R')], [Sym('('), Sym('R'), Sym(')')]], 0, 4) == Success(Flat([Ref(3)], [[Sym('R')], [Sym('('), Sym('R'), Sym(')')], [Sym('-'), Ref(1)], [Sym('('), Sym('-'), Ref(1), Sym(')')]]))
  {
    var ts, els, content := [Sym('('), Sym('-'), Ref(1), Sym(')')], [[Sym('R')], [Sym('('), Sym('R'), Sym(')')]], [Sym('-'), Ref(1)];
    var inner, body := [[Sym('R')], [Sym('('), Sym('R'), Sym(')')], [Sym('-'), Ref(1)]], [Sym('-'), Ref(1)];
    var ts', els' := [Ref(3)], [[Sym('R')], [Sym('('), Sym('R'), Sym(')')], [Sym('-'), Ref(1)], [Sym('('), Sym('-'), Ref(1), Sym(')')]];
    GroupedNegationStep3Found();
    GroupedNegationGroup3Flattens();
    GroupedNegationStep3Interned();
    GroupSubstitution(ts, els, 0, 4, content, inner, 2, body, 3, ts', els');
  }

  /** `(-(R))`, groups: `(-1)` `(-1)` is new and becomes element 3. */
  lemma GroupedNegationStep3()
    requires Admissible([Sym('('), Sym('-'), Ref(1), Sym(')')], [[Sym('R')], [Sym('('), Sym('R'), Sym(')')]])
    ensures Admissible([Ref(3)], [[Sym('R')], [Sym('('), Sym('R'), Sym(')')], [Sym('-'), Ref(1)], [Sym('('), Sym('-'), Ref(1), Sym(')')]])
    ensures Sweep(Groups, [Sym('('), Sym('-'), Ref(1), Sym(')')], [[Sym('R')], [Sym('('), Sym('R'), Sym(')')]]) == Sweep(Groups, [Ref(3)], [[Sym('R')], [Sym('('), Sym('R'), Sym(')')], [Sym('-'), Ref(1)], [Sym('('), Sym('-'), Ref(1), Sym(')')]])
  {
    var ts, els, ts', els' := [Sym('('), Sym('-'), Ref(1), Sym(')')], [[Sym('R')], [Sym('('), Sym('R'), Sym(')')]], [Ref(3)], [[Sym('R')], [Sym('('), Sym('R'), Sym(')')], [Sym('-'), Ref(1)], [Sym('('), Sym('-'), Ref(1), Sym(')')]];
    GroupedNegationStep3Found();
    GroupedNegationStep3Substitution();
    SweepBy(Groups, ts, els, 0, 4, ts', els');
  }

  /** `(-(R))`, rule 0 (propositions): 1 substitution. */
  lemma GroupedNegationAtoms()
    requires Admissible([Sym('('), Sym('-'), Sym('('), Sym('R'), Sym(')'), Sym(')')], NoElements)
    ensures Admissible([Sym('('), Sym('-'), Sym('('), Ref(0), Sym(')'), Sym(')')], [[Sym('R')]])
    ensures Sweep(Atoms, [Sym('('), Sym('-'), Sym('('), Sym('R'), Sym(')'), Sym(')')], NoElements) == Success(Flat([Sym('('), Sym('-'), Sym('('), Ref(0), Sym(')'), Sym(')')], [[Sym('R')]]))
  {
    var ts, els := [Sym('('), Sym('-'), Sym('('), Ref(0), Sym(')'), Sym(')')], [[Sym('R')]];
    GroupedNegationStep1();
    GroupedNegationDone();
    SweepStops(Atoms, ts, els);
  }

  /** `(-(R))`, rule 1 (groups): 2 substitutions. */
  lemma GroupedNegationGroups()
    requires Admissible([Sym('('), Sym('-'), Sym('('), Ref(0), Sym(')'), Sym(')')], [[Sym('R')]])
    ensures Admissible([Ref(3)], [[Sym('R')], [Sym('('), Sym('R'), Sym(')')], [Sym('-'), Ref(1)], [Sym('('), Sym('-'), Ref(1), Sym(')')]])
    ensures Sweep(Groups, [Sym('('), Sym('-'), Sym('('), Ref(0), Sym(')'), Sym(')')], [[Sym('R')]]) == Success(Flat([Ref(3)], [[Sym('R')], [Sym('('), Sym('R'), Sym(')')], [Sym('-'), Ref(1)], [Sym('('), Sym('-'), Ref(1), Sym(')')]]))
  {
    var ts, els := [Ref(3)], [[Sym('R')], [Sym('('), Sym('R'), Sym(')')], [Sym('-'), Ref(1)], [Sym('('), Sym('-'), Ref(1), Sym(')')]];
    GroupedNegationStep2();
    GroupedNegationStep3();
    GroupedNegationDone();
    SweepStops(Groups, ts, els);
  }

  /** `(-(R))`, rule 2 (negations): nothing matches. */
  lemma GroupedNegationNegations()
    requires Admissible([Ref(3)], [[Sym('R')], [Sym('('), Sym('R'), Sym(')')], [Sym('-'), Ref(1)], [Sym('('), Sym('-'), Ref(1), Sym(')')]])
    ensures Admissible([Ref(3)], [[Sym('R')], [Sym('('), Sym('R'), Sym(')')], [Sym('-'), Ref(1)], [Sym('('), Sym('-'), Ref(1), Sym(')')]])
    ensures Sweep(Negations, [Ref(3)], [[Sym('R')], [Sym('('), Sym('R'), Sym(')')], [Sym('-'), Ref(1)], [Sym('('), Sym('-'), Ref(1), Sym(')')]]) == Success(Flat([Ref(3)], [[Sym('R')], [Sym('('), Sym('R'), Sym(')')], [Sym('-'), Ref(1)], [Sym('('), Sym('-'), Ref(1), Sym(')')]]))
  {
    var ts, els := [Ref(3)], [[Sym('R')], [Sym('('), Sym('R'), Sym(')')], [Sym('-'), Ref(1)], [Sym('('), Sym('-'), Ref(1), Sym(')')]];
    GroupedNegationDone();
    SweepStops(Negations, ts, els);
  }

  /** `(-(R))`, rule 3 (conjunctions and disjunctions): nothing matches. */
  lemma GroupedNegationJunctions()
    requires Admissible([Ref(3)], [[Sym('R')], [Sym('('), Sym('R'), Sym(')')], [Sym('-'), Ref(1)], [Sym('('), Sym('-'), Ref(1), Sym(')')]])
    ensures Admissible([Ref(3)], [[Sym('R')], [Sym('('), Sym('R'), Sym(')')], [Sym('-'), Ref(1)], [Sym('('), Sym('-'), Ref(1), Sym(')')]])
    ensures Sweep(Junctions, [Ref(3)], [[Sym('R')], [Sym('('), Sym('R'), Sym(')')], [Sym('-'), Ref(1)], [Sym('('), Sym('-'), Ref(1), Sym(')')]]) == Success(Flat([Ref(3)], [[Sym('R')], [Sym('('), Sym('R'), Sym(')')], [Sym('-'), Ref(1)], [Sym('('), Sym('-'), Ref(1), Sym(')')]]))
  {
    var ts, els := [Ref(3)], [[Sym('R')], [Sym('('), Sym('R'), Sym(')')], [Sym('-'), Ref(1)], [Sym('('), Sym('-'), Ref(1), Sym(')')]];
    GroupedNegationDone();
    SweepStops(Junctions, ts, els);
  }

  /** `(-(R))`, rule 4 (implications): nothing matches. */
  lemma GroupedNegationImplications()
    requires Admissible([Ref(3)], [[Sym('R')], [Sym('('), Sym('R'), Sym(')')], [Sym('-'), Ref(1)], [Sym('('), Sym('-'), Ref(1), Sym(')')]])
    ensures Admissible([Ref(3)], [[Sym('R')], [Sym('('), Sym('R'), Sym(')')], [Sym('-'), Ref(1)], [Sym('('), Sym('-'), Ref(1), Sym(')')]])
    ensures Sweep(Implications, [Ref(3)], [[Sym('R')], [Sym('('), Sym('R'), Sym(')')], [Sym('-'), Ref(1)], [Sym('('), Sym('-'), Ref(1), Sym(')')]]) == Success(Flat([Ref(3)], [[Sym('R')], [Sym('('), Sym('R'), Sym(')')], [Sym('-'), Ref(1)], [Sym('('), Sym('-'), Ref(1), Sym(')')]]))
  {
    var ts, els := [Ref(3)], [[Sym('R')], [Sym('('), Sym('R'), Sym(')')], [Sym('-'), Ref(1)], [Sym('('), Sym('-'), Ref(1), Sym(')')]];
    GroupedNegationDone();
    SweepStops(Implications, ts, els);
  }

  /** `(-(R))`: once each rule has been swept, nothing is left for it to match. */
  lemma GroupedNegationDone()
    ensures FirstMatch(Atoms, [Sym('('), Sym('-'), Sym('('), Ref(0), Sym(')'), Sym(')')], 0) == None
    ensures FirstMatch(Groups, [Ref(3)], 0) == None
    ensures FirstMatch(Negations, [Ref(3)], 0) == None
    ensures FirstMatch(Junctions, [Ref(3)], 0) == None
    ensures FirstMatch(Implications, [Ref(3)], 0) == None
  {
  }

  /** `(-(R))` flattens to element 3. */
  lemma GroupedNegationFlattens()
    ensures Flatten([Sym('('), Sym('-'), Sym('('), Sym('R'), Sym(')'), Sym(')')], NoElements) == Success(Analysis([[Sym('R')], [Sym('('), Sym('R'), Sym(')')], [Sym('-'), Ref(1)], [Sym('('), Sym('-'), Ref(1), Sym(')')]], 3))
  {
    var ts, els := [Sym('('), Sym('-'), Sym('('), Sym('R'), Sym(')'), Sym(')')], NoElements;
    var f1 := Flat([Sym('('), Sym('-'), Sym('('), Ref(0), Sym(')'), Sym(')')], [[Sym('R')]]);
    var f2 := Flat([Ref(3)], [[Sym('R')], [Sym('('), Sym('R'), Sym(')')], [Sym('-'), Ref(1)], [Sym('('), Sym('-'), Ref(1), Sym(')')]]);
    var f3 := Flat([Ref(3)], [[Sym('R')], [Sym('('), Sym('R'), Sym(')')], [Sym('-'), Ref(1)], [Sym('('), Sym('-'), Ref(1), Sym(')')]]);
    var f4 := Flat([Ref(3)], [[Sym('R')], [Sym('('), Sym('R'), Sym(')')], [Sym('-'), Ref(1)], [Sym('('), Sym('-'), Ref(1), Sym(')')]]);
    var f5 := Flat([Ref(3)], [[Sym('R')], [Sym('('), Sym('R'), Sym(')')], [Sym('-'), Ref(1)], [Sym('('), Sym('-'), Ref(1), Sym(')')]]);
    GroupedNegationAtoms();
    GroupedNegationGroups();
    GroupedNegationNegations();
    GroupedNegationJunctions();
    GroupedNegationImplications();
    FlattenOfRules(ts, els, f1, f2, f3, f4, f5, 3);
  }


  // ---------------------------------------------------------------------
  // `(P&Q)`
  // ---------------------------------------------------------------------

  /** `(P&Q)`, conjunctions and disjunctions: the leftmost match is `0&1`, at 0; it is new and becomes element 2. */
  lemma GroupedConjunctionStep4Found()
    ensures FirstMatch(Junctions, [Ref(0), Sym('&'), Ref(1)], 0) == Some(0)
    ensures MatchLength(Junctions, [Ref(0), Sym('&'), Ref(1)], 0) == 3
    ensures [Ref(2)] == [Ref(0), Sym('&'), Ref(1)][..0] + [Ref(2)] + [Ref(0), Sym('&'), Ref(1)][3..]
    ensures [Ref(0), Sym('&'), Ref(1)][0..3] == [Ref(0), Sym('&'), Ref(1)]
    ensures Intern([[Sym('P')], [Sym('Q')]], [Ref(0), Sym('&'), Ref(1)]).0 == [[Sym('P')], [Sym('Q')], [Ref(0), Sym('&'), Ref(1)]]
    ensures Intern([[Sym('P')], [Sym('Q')]], [Ref(0), Sym('&'), Ref(1)]).1 == 2
  {
    var els, e := [[Sym('P')], [Sym('Q')]], [Ref(0), Sym('&'), Ref(1)];
    assert |els[0]| != |e|;
    assert |els[1]| != |e|;
  }

  /** `(P&Q)`, conjunctions and disjunctions: `0&1` is new and becomes element 2. */
  lemma GroupedConjunctionStep4()
    requires Admissible([Ref(0), Sym('&'), Ref(1)], [[Sym('P')], [Sym('Q')]])
    ensures Admissible([Ref(2)], [[Sym('P')], [Sym('Q')], [Ref(0), Sym('&'), Ref(1)]])
    ensures Sweep(Junctions, [Ref(0), Sym('&'), Ref(1)], [[Sym('P')], [Sym('Q')]]) == Sweep(Junctions, [Ref(2)], [[Sym('P')], [Sym('Q')], [Ref(0), Sym('&'), Ref(1)]])
  {
    var ts, els, ts', els' := [Ref(0), Sym('&'), Ref(1)], [[Sym('P')], [Sym('Q')]], [Ref(2)], [[Sym('P')], [Sym('Q')], [Ref(0), Sym('&'), Ref(1)]];
    GroupedConjunctionStep4Found();
    SweepStep(Junctions, ts, els, 0, 3, 2, ts', els');
  }

  /** In `(P&Q)`, the content `0&1` of a group, rule 0 (propositions): nothing matches. */
  lemma GroupedConjunctionGroup3Atoms()
    requires Admissible([Ref(0), Sym('&'), Ref(1)], [[Sym('P')], [Sym('Q')]])
    ensures Admissible([Ref(0), Sym('&'), Ref(1)], [[Sym('P')], [Sym('Q')]])
    ensures Sweep(Atoms, [Ref(0), Sym('&'), Ref(1)], [[Sym('P')], [Sym('Q')]]) == Success(Flat([Ref(0), Sym('&'), Ref(1)], [[Sym('P')], [Sym('Q')]]))
  {
    var ts, els := [Ref(0), Sym('&'), Ref(1)], [[Sym('P')], [Sym('Q')]];
    GroupedConjunctionGroup3Done();
    SweepStops(Atoms, ts, els);
  }

  /** In `(P&Q)`, the content `0&1` of a group, rule 1 (groups): nothing matches. */
  lemma GroupedConjunctionGroup3Groups()
    requires Admissible([Ref(0), Sym('&'), Ref(1)], [[Sym('P')], [Sym('Q')]])
    ensures Admissible([Ref(0), Sym('&'), Ref(1)], [[Sym('P')], [Sym('Q')]])
    ensures Sweep(Groups, [Ref(0), Sym('&'), Ref(1)], [[Sym('P')], [Sym('Q')]]) == Success(Flat([Ref(0), Sym('&'), Ref(1)], [[Sym('P')], [Sym('Q')]]))
  {
    var ts, els := [Ref(0), Sym('&'), Ref(1)], [[Sym('P')], [Sym('Q')]];
    GroupedConjunctionGroup3Done();
    SweepStops(Groups, ts, els);
  }

  /** In `(P&Q)`, the content `0&1` of a group, rule 2 (negations): nothing matches. */
  lemma GroupedConjunctionGroup3Negations()
    requires Admissible([Ref(0), Sym('&'), Ref(1)], [[Sym('P')], [Sym('Q')]])
    ensures Admissible([Ref(0), Sym('&'), Ref(1)], [[Sym('P')], [Sym('Q')]])
    ensures Sweep(Negations, [Ref(0), Sym('&'), Ref(1)], [[Sym('P')], [Sym('Q')]]) == Success(Flat([Ref(0), Sym('&'), Ref(1)], [[Sym('P')], [Sym('Q')]]))
  {
    var ts, els := [Ref(0), Sym('&'), Ref(1)], [[Sym('P')], [Sym('Q')]];
    GroupedConjunctionGroup3Done();
    SweepStops(Negations, ts, els);
  }

  /** In `(P&Q)`, the content `0&1` of a group, rule 3 (conjunctions and disjunctions): 1 substitution. */
  lemma GroupedConjunctionGroup3Junctions()
    requires Admissible([Ref(0), Sym('&'), Ref(1)], [[Sym('P')], [Sym('Q')]])
    ensures Admissible([Ref(2)], [[Sym('P')], [Sym('Q')], [Ref(0), Sym('&'), Ref(1)]])
    ensures Sweep(Junctions, [Ref(0), Sym('&'), Ref(1)], [[Sym('P')], [Sym('Q')]]) == Success(Flat([Ref(2)], [[Sym('P')], [Sym('Q')], [Ref(0), Sym('&'), Ref(1)]]))
  {
    var ts, els := [Ref(2)], [[Sym('P')], [Sym('Q')], [Ref(0), Sym('&'), Ref(1)]];
    GroupedConjunctionStep4();
    GroupedConjunctionGroup3Done();
    SweepStops(Junctions, ts, els);
  }

  /** In `(P&Q)`, the content `0&1` of a group, rule 4 (implications): nothing matches. */
  lemma GroupedConjunctionGroup3Implications()
    requires Admissible([Ref(2)], [[Sym('P')], [Sym('Q')], [Ref(0), Sym('&'), Ref(1)]])
    ensures Admissible([Ref(2)], [[Sym('P')], [Sym('Q')], [Ref(0), Sym('&'), Ref(1)]])
    ensures Sweep(Implications, [Ref(2)], [[Sym('P')], [Sym('Q')], [Ref(0), Sym('&'), Ref(1)]]) == Success(Flat([Ref(2)], [[Sym('P')], [Sym('Q')], [Ref(0), Sym('&'), Ref(1)]]))
  {
    var ts, els := [Ref(2)], [[Sym('P')], [Sym('Q')], [Ref(0), Sym('&'), Ref(1)]];
    GroupedConjunctionGroup3Done();
    SweepStops(Implications, ts, els);
  }

  /** In `(P&Q)`, the content `0&1` of a group: once each rule has been swept, nothing is left for it to match. */
  lemma GroupedConjunctionGroup3Done()
    ensures FirstMatch(Atoms, [Ref(0), Sym('&'), Ref(1)], 0) == None
    ensures FirstMatch(Groups, [Ref(0), Sym('&'), Ref(1)], 0) == None
    ensures FirstMatch(Negations, [Ref(0), Sym('&'), Ref(1)], 0) == None
    ensures FirstMatch(Junctions, [Ref(2)], 0) == None
    ensures FirstMatch(Implications, [Ref(2)], 0) == None
  {
  }

  /** In `(P&Q)`, the content `0&1` of a group flattens to element 2. */
  lemma GroupedConjunctionGroup3Flattens()
    requires Admissible([Ref(0), Sym('&'), Ref(1)], [[Sym('P')], [Sym('Q')]])
    ensures Flatten([Ref(0), Sym('&'), Ref(1)], [[Sym('P')], [Sym('Q')]]) == Success(Analysis([[Sym('P')], [Sym('Q')], [Ref(0), Sym('&'), Ref(1)]], 2))
  {
    var ts, els := [Ref(0), Sym('&'), Ref(1)], [[Sym('P')], [Sym('Q')]];
    var f1 := Flat([Ref(0), Sym('&'), Ref(1)], [[Sym('P')], [Sym('Q')]]);
    var f2 := Flat([Ref(0), Sym('&'), Ref(1)], [[Sym('P')], [Sym('Q')]]);
    var f3 := Flat([Ref(0), Sym('&'), Ref(1)], [[Sym('P')], [Sym('Q')]]);
    var f4 := Flat([Ref(2)], [[Sym('P')], [Sym('Q')], [Ref(0), Sym('&'), Ref(1)]]);
    var f5 := Flat([Ref(2)], [[Sym('P')], [Sym('Q')], [Ref(0), Sym('&'), Ref(1)]]);
    GroupedConjunctionGroup3Atoms();
    GroupedConjunctionGroup3Groups();
    GroupedConjunctionGroup3Negations();
    GroupedConjunctionGroup3Junctions();
    GroupedConjunctionGroup3Implications();
    FlattenOfRules(ts, els, f1, f2, f3, f4, f5, 2);
  }

  /** `(P&Q)`, propositions: the leftmost match is `P`, at 1; it is new and becomes element 0. */
  lemma GroupedConjunctionStep1Found()
    ensures FirstMatch(Atoms, [Sym('('), Sym('P'), Sym('&'), Sym('Q'), Sym(')')], 0) == Some(1)
    ensures MatchLength(Atoms, [Sym('('), Sym('P'), Sym('&'), Sym('Q'), Sym(')')], 1) == 1
    ensures [Sym('('), Ref(0), Sym('&'), Sym('Q'), Sym(')')] == [Sym('('), Sym('P'), Sym('&'), Sym('Q'), Sym(')')][..1] + [Ref(0)] + [Sym('('), Sym('P'), Sym('&'), Sym('Q'), Sym(')')][2..]
    ensures [Sym('('), Sym('P'), Sym('&'), Sym('Q'), Sym(')')][1..2] == [Sym('P')]
    ensures Intern(NoElements, [Sym('P')]).0 == [[Sym('P')]]
    ensures Intern(NoElements, [Sym('P')]).1 == 0
  {
  }

  /** `(P&Q)`, propositions: `P` is new and becomes element 0. */
  lemma GroupedConjunctionStep1()
    requires Admissible([Sym('('), Sym('P'), Sym('&'), Sym('Q'), Sym(')')], NoElements)
    ensures Admissible([Sym('('), Ref(0), Sym('&'), Sym('Q'), Sym(')')], [[Sym('P')]])
    ensures Sweep(Atoms, [Sym('('), Sym('P'), Sym('&'), Sym('Q'), Sym(')')], NoElements) == Sweep(Atoms, [Sym('('), Ref(0), Sym('&'), Sym('Q'), Sym(')')], [[Sym('P')]])
  {
    var ts, els, ts', els' := [Sym('('), Sym('P'), Sym('&'), Sym('Q'), Sym(')')], NoElements, [Sym('('), Ref(0), Sym('&'), Sym('Q'), Sym(')')], [[Sym('P')]];
    GroupedConjunctionStep1Found();
    SweepStep(Atoms, ts, els, 1, 1, 0, ts', els');
  }

  /** `(P&Q)`, propositions: the leftmost match is `Q`, at 3; it is new and becomes element 1. */
  lemma GroupedConjunctionStep2Found()
    ensures FirstMatch(Atoms, [Sym('('), Ref(0), Sym('&'), Sym('Q'), Sym(')')], 0) == Some(3)
    ensures MatchLength(Atoms, [Sym('('), Ref(0), Sym('&'), Sym('Q'), Sym(')')], 3) == 1
    ensures [Sym('('), Ref(0), Sym('&'), Ref(1), Sym(')')] == [Sym('('), Ref(0), Sym('&'), Sym('Q'), Sym(')')][..3] + [Ref(1)] + [Sym('('), Ref(0), Sym('&'), Sym('Q'), Sym(')')][4..]
    ensures [Sym('('), Ref(0), Sym('&'), Sym('Q'), Sym(')')][3..4] == [Sym('Q')]
    ensures Intern([[Sym('P')]], [Sym('Q')]).0 == [[Sym('P')], [Sym('Q')]]
    ensures Intern([[Sym('P')]], [Sym('Q')]).1 == 1
  {
    var els, e := [[Sym('P')]], [Sym('Q')];
    assert els[0][0] != e[0];
  }

  /** `(P&Q)`, propositions: `Q` is new and becomes element 1. */
  lemma GroupedConjunctionStep2()
    requires Admissible([Sym('('), Ref(0), Sym('&'), Sym('Q'), Sym(')')], [[Sym('P')]])
    ensures Admissible([Sym('('), Ref(0), Sym('&'), Ref(1), Sym(')')], [[Sym('P')], [Sym('Q')]])
    ensures Sweep(Atoms, [Sym('('), Ref(0), Sym('&'), Sym('Q'), Sym(')')], [[Sym('P')]]) == Sweep(Atoms, [Sym('('), Ref(0), Sym('&'), Ref(1), Sym(')')], [[Sym('P')], [Sym('Q')]])
  {
    var ts, els, ts', els' := [Sym('('), Ref(0), Sym('&'), Sym('Q'), Sym(')')], [[Sym('P')]], [Sym('('), Ref(0), Sym('&'), Ref(1), Sym(')')], [[Sym('P')], [Sym('Q')]];
    GroupedConjunctionStep2Found();
    SweepStep(Atoms, ts, els, 3, 1, 1, ts', els');
  }

  /** `(P&Q)`, groups: the leftmost match is `(0&1)`, at 0. */
  lemma GroupedConjunctionStep3Found()
    ensures FirstMatch(Groups, [Sym('('), Ref(0), Sym('&'), Ref(1), Sym(')')], 0) == Some(0)
    ensures MatchLength(Groups, [Sym('('), Ref(0), Sym('&'), Ref(1), Sym(')')], 0) == 5
    ensures [Ref(3)] == [Sym('('), Ref(0), Sym('&'), Ref(1), Sym(')')][..0] + [Ref(3)] + [Sym('('), Ref(0), Sym('&'), Ref(1), Sym(')')][5..]
    ensures [Sym('('), Ref(0), Sym('&'), Ref(1), Sym(')')][1..4] == [Ref(0), Sym('&'), Ref(1)]
  {
  }

  /** `(P&Q)`: the group element `(0&1)` is new and becomes element 3. */
  lemma GroupedConjunctionStep3Interned()
    ensures 2 < |[[Sym('P')], [Sym('Q')], [Ref(0), Sym('&'), Ref(1)]]| && [[Sym('P')], [Sym('Q')], [Ref(0), Sym('&'), Ref(1)]][2] == [Ref(0), Sym('&'), Ref(1)]
    ensures Intern([[Sym('P')], [Sym('Q')], [Ref(0), Sym('&'), Ref(1)]], [Sym('(')] + [Ref(0), Sym('&'), Ref(1)] + [Sym(')')]).0 == [[Sym('P')], [Sym('Q')], [Ref(0), Sym('&'), Ref(1)], [Sym('('), Ref(0), Sym('&'), Ref(1), Sym(')')]]
    ensures Intern([[Sym('P')], [Sym('Q')], [Ref(0), Sym('&'), Ref(1)]], [Sym('(')] + [Ref(0), Sym('&'), Ref(1)] + [Sym(')')]).1 == 3
  {
    assert [Sym('(')] + [Ref(0), Sym('&'), Ref(1)] + [Sym(')')] == [Sym('('), Ref(0), Sym('&'), Ref(1), Sym(')')];
    var els, e := [[Sym('P')], [Sym('Q')], [Ref(0), Sym('&'), Ref(1)]], [Sym('('), Ref(0), Sym('&'), Ref(1), Sym(')')];
    assert |els[0]| != |e|;
    assert |els[1]| != |e|;
    assert |els[2]| != |e|;
  }

  /** `(P&Q)`, groups: the group at 0 becomes element 3. */
  lemma GroupedConjunctionStep3Substitution()
    requires Admissible([Sym('('), Ref(0), Sym('&'), Ref(1), Sym(')')], [[Sym('P')], [Sym('Q')]])
    ensures Substitute(Groups, [Sym('('), Ref(0), Sym('&'), Ref(1), Sym(')')], [[Sym('P')], [Sym('Q')]], 0, 5) == Success(Flat([Ref(3)], [[Sym('P')], [Sym('Q')], [Ref(0), Sym('&'), Ref(1)], [Sym('('), Ref(0), Sym('&'), Ref(1), Sym(')')]]))
  {
    var ts, els, content := [Sym('('), Ref(0), Sym('&'), Ref(1), Sym(')')], [[Sym('P')], [Sym('Q')]], [Ref(0), Sym('&'), Ref(1)];
    var inner, body := [[Sym('P')], [Sym('Q')], [Ref(0), Sym('&'), Ref(1)]], [Ref(0), Sym('&'), Ref(1)];
    var ts', els' := [Ref(3)], [[Sym('P')], [Sym('Q')], [Ref(0), Sym('&'), Ref(1)], [Sym('('), Ref(0), Sym('&'), Ref(1), Sym(')')]];
    GroupedConjunctionStep3Found();
    GroupedConjunctionGroup3Flattens();
    GroupedConjunctionStep3Interned();
    GroupSubstitution(ts, els, 0, 5, content, inner, 2, body, 3, ts', els');
  }

  /** `(P&Q)`, groups: `(0&1)` `(0&1)` is new and becomes element 3. */
  lemma GroupedConjunctionStep3()
    requires Admissible([Sym('('), Ref(0), Sym('&'), Ref(1), Sym(')')], [[Sym('P')], [Sym('Q')]])
    ensures Admissible([Ref(3)], [[Sym('P')], [Sym('Q')], [Ref(0), Sym('&'), Ref(1)], [Sym('('), Ref(0), Sym('&'), Ref(1), Sym(')')]])
    ensures Sweep(Groups, [Sym('('), Ref(0), Sym('&'), Ref(1), Sym(')')], [[Sym('P')], [Sym('Q')]]) == Sweep(Groups, [Ref(3)], [[Sym('P')], [Sym('Q')], [Ref(0), Sym('&'), Ref(1)], [Sym('('), Ref(0), Sym('&'), Ref(1), Sym(')')]])
  {
    var ts, els, ts', els' := [Sym('('), Ref(0), Sym('&'), Ref(1), Sym(')')], [[Sym('P')], [Sym('Q')]], [Ref(3)], [[Sym('P')], [Sym('Q')], [Ref(0), Sym('&'), Ref(1)], [Sym('('), Ref(0), Sym('&'), Ref(1), Sym(')')]];
    GroupedConjunctionStep3Found();
    GroupedConjunctionStep3Substitution();
    SweepBy(Groups, ts, els, 0, 5, ts', els');
  }

  /** `(P&Q)`, rule 0 (propositions): 2 substitutions. */
  lemma GroupedConjunctionAtoms()
    requires Admissible([Sym('('), Sym('P'), Sym('&'), Sym('Q'), Sym(')')], NoElements)
    ensures Admissible([Sym('('), Ref(0), Sym('&'), Ref(1), Sym(')')], [[Sym('P')], [Sym('Q')]])
    ensures Sweep(Atoms, [Sym('('), Sym('P'), Sym('&'), Sym('Q'), Sym(')')], NoElements) == Success(Flat([Sym('('), Ref(0), Sym('&'), Ref(1), Sym(')')], [[Sym('P')], [Sym('Q')]]))
  {
    var ts, els := [Sym('('), Ref(0), Sym('&'), Ref(1), Sym(')')], [[Sym('P')], [Sym('Q')]];
    GroupedConjunctionStep1();
    GroupedConjunctionStep2();
    GroupedConjunctionDone();
    SweepStops(Atoms, ts, els);
  }

  /** `(P&Q)`, rule 1 (groups): 1 substitution. */
  lemma GroupedConjunctionGroups()
    requires Admissible([Sym('('), Ref(0), Sym('&'), Ref(1), Sym(')')], [[Sym('P')], [Sym('Q')]])
    ensures Admissible([Ref(3)], [[Sym('P')], [Sym('Q')], [Ref(0), Sym('&'), Ref(1)], [Sym('('), Ref(0), Sym('&'), Ref(1), Sym(')')]])
    ensures Sweep(Groups, [Sym('('), Ref(0), Sym('&'), Ref(1), Sym(')')], [[Sym('P')], [Sym('Q')]]) == Success(Flat([Ref(3)], [[Sym('P')], [Sym('Q')], [Ref(0), Sym('&'), Ref(1)], [Sym('('), Ref(0), Sym('&'), Ref(1), Sym(')')]]))
  {
    var ts, els := [Ref(3)], [[Sym('P')], [Sym('Q')], [Ref(0), Sym('&'), Ref(1)], [Sym('('), Ref(0), Sym('&'), Ref(1), Sym(')')]];
    GroupedConjunctionStep3();
    GroupedConjunctionDone();
    SweepStops(Groups, ts, els);
  }

  /** `(P&Q)`, rule 2 (negations): nothing matches. */
  lemma GroupedConjunctionNegations()
    requires Admissible([Ref(3)], [[Sym('P')], [Sym('Q')], [Ref(0), Sym('&'), Ref(1)], [Sym('('), Ref(0), Sym('&'), Ref(1), Sym(')')]])
    ensures Admissible([Ref(3)], [[Sym('P')], [Sym('Q')], [Ref(0), Sym('&'), Ref(1)], [Sym('('), Ref(0), Sym('&'), Ref(1), Sym(')')]])
    ensures Sweep(Negations, [Ref(3)], [[Sym('P')], [Sym('Q')], [Ref(0), Sym('&'), Ref(1)], [Sym('('), Ref(0), Sym('&'), Ref(1), Sym(')')]]) == Success(Flat([Ref(3)], [[Sym('P')], [Sym('Q')], [Ref(0), Sym('&'), Ref(1)], [Sym('('), Ref(0), Sym('&'), Ref(1), Sym(')')]]))
  {
    var ts, els := [Ref(3)], [[Sym('P')], [Sym('Q')], [Ref(0), Sym('&'), Ref(1)], [Sym('('), Ref(0), Sym('&'), Ref(1), Sym(')')]];
    GroupedConjunctionDone();
    SweepStops(Negations, ts, els);
  }

  /** `(P&Q)`, rule 3 (conjunctions and disjunctions): nothing matches. */
  lemma GroupedConjunctionJunctions()
    requires Admissible([Ref(3)], [[Sym('P')], [Sym('Q')], [Ref(0), Sym('&'), Ref(1)], [Sym('('), Ref(0), Sym('&'), Ref(1), Sym(')')]])
    ensures Admissible([Ref(3)], [[Sym('P')], [Sym('Q')], [Ref(0), Sym('&'), Ref(1)], [Sym('('), Ref(0), Sym('&'), Ref(1), Sym(')')]])
    ensures Sweep(Junctions, [Ref(3)], [[Sym('P')], [Sym('Q')], [Ref(0), Sym('&'), Ref(1)], [Sym('('), Ref(0), Sym('&'), Ref(1), Sym(')')]]) == Success(Flat([Ref(3)], [[Sym('P')], [Sym('Q')], [Ref(0), Sym('&'), Ref(1)], [Sym('('), Ref(0), Sym('&'), Ref(1), Sym(')')]]))
  {
    var ts, els := [Ref(3)], [[Sym('P')], [Sym('Q')], [Ref(0), Sym('&'), Ref(1)], [Sym('('), Ref(0), Sym('&'), Ref(1), Sym(')')]];
    GroupedConjunctionDone();
    SweepStops(Junctions, ts, els);
  }

  /** `(P&Q)`, rule 4 (implications): nothing matches. */
  lemma GroupedConjunctionImplications()
    requires Admissible([Ref(3)], [[Sym('P')], [Sym('Q')], [Ref(0), Sym('&'), Ref(1)], [Sym('('), Ref(0), Sym('&'), Ref(1), Sym(')')]])
    ensures Admissible([Ref(3)], [[Sym('P')], [Sym('Q')], [Ref(0), Sym('&'), Ref(1)], [Sym('('), Ref(0), Sym('&'), Ref(1), Sym(')')]])
    ensures Sweep(Implications, [Ref(3)], [[Sym('P')], [Sym('Q')], [Ref(0), Sym('&'), Ref(1)], [Sym('('), Ref(0), Sym('&'), Ref(1), Sym(')')]]) == Success(Flat([Ref(3)], [[Sym('P')], [Sym('Q')], [Ref(0), Sym('&'), Ref(1)], [Sym('('), Ref(0), Sym('&'), Ref(1), Sym(')')]]))
  {
    var ts, els := [Ref(3)], [[Sym('P')], [Sym('Q')], [Ref(0), Sym('&'), Ref(1)], [Sym('('), Ref(0), Sym('&'), Ref(1), Sym(')')]];
    GroupedConjunctionDone();
    SweepStops(Implications, ts, els);
  }

  /** `(P&Q)`: once each rule has been swept, nothing is left for it to match. */
  lemma GroupedConjunctionDone()
    ensures FirstMatch(Atoms, [Sym('('), Ref(0), Sym('&'), Ref(1), Sym(')')], 0) == None
    ensures FirstMatch(Groups, [Ref(3)], 0) == None
    ensures FirstMatch(Negations, [Ref(3)], 0) == None
    ensures FirstMatch(Junctions, [Ref(3)], 0) == None
    ensures FirstMatch(Implications, [Ref(3)], 0) == None
  {
  }

  /** `(P&Q)` flattens to element 3. */
  lemma GroupedConjunctionFlattens()
    ensures Flatten([Sym('('), Sym('P'), Sym('&'), Sym('Q'), Sym(')')], NoElements) == Success(Analysis([[Sym('P')], [Sym('Q')], [Ref(0), Sym('&'), Ref(1)], [Sym('('), Ref(0), Sym('&'), Ref(1), Sym(')')]], 3))
  {
    var ts, els := [Sym('('), Sym('P'), Sym('&'), Sym('Q'), Sym(')')], NoElements;
    var f1 := Flat([Sym('('), Ref(0), Sym('&'), Ref(1), Sym(')')], [[Sym('P')], [Sym('Q')]]);
    var f2 := Flat([Ref(3)], [[Sym('P')], [Sym('Q')], [Ref(0), Sym('&'), Ref(1)], [Sym('('), Ref(0), Sym('&'), Ref(1), Sym(')')]]);
    var f3 := Flat([Ref(3)], [[Sym('P')], [Sym('Q')], [Ref(0), Sym('&'), Ref(1)], [Sym('('), Ref(0), Sym('&'), Ref(1), Sym(')')]]);
    var f4 := Flat([Ref(3)], [[Sym('P')], [Sym('Q')], [Ref(0), Sym('&'), Ref(1)], [Sym('('), Ref(0), Sym('&'), Ref(1), Sym(')')]]);
    var f5 := Flat([Ref(3)], [[Sym('P')], [Sym('Q')], [Ref(0), Sym('&'), Ref(1)], [Sym('('), Ref(0), Sym('&'), Ref(1), Sym(')')]]);
    GroupedConjunctionAtoms();
    GroupedConjunctionGroups();
    GroupedConjunctionNegations();
    GroupedConjunctionJunctions();
    GroupedConjunctionImplications();
    FlattenOfRules(ts, els, f1, f2, f3, f4, f5, 3);
  }


  // ---------------------------------------------------------------------
  // `PvQ`
  // ---------------------------------------------------------------------

  /** `PvQ`, propositions: the leftmost match is `P`, at 0; it is new and becomes element 0. */
  lemma PlainDisjunctionStep1Found()
    ensures FirstMatch(Atoms, [Sym('P'), Sym('v'), Sym('Q')], 0) == Some(0)
    ensures MatchLength(Atoms, [Sym('P'), Sym('v'), Sym('Q')], 0) == 1
    ensures [Ref(0), Sym('v'), Sym('Q')] == [Sym('P'), Sym('v'), Sym('Q')][..0] + [Ref(0)] + [Sym('P'), Sym('v'), Sym('Q')][1..]
    ensures [Sym('P'), Sym('v'), Sym('Q')][0..1] == [Sym('P')]
    ensures Intern(NoElements, [Sym('P')]).0 == [[Sym('P')]]
    ensures Intern(NoElements, [Sym('P')]).1 == 0
  {
  }

  /** `PvQ`, propositions: `P` is new and becomes element 0. */
  lemma PlainDisjunctionStep1()
    requires Admissible([Sym('P'), Sym('v'), Sym('Q')], NoElements)
    ensures Admissible([Ref(0), Sym('v'), Sym('Q')], [[Sym('P')]])
    ensures Sweep(Atoms, [Sym('P'), Sym('v'), Sym('Q')], NoElements) == Sweep(Atoms, [Ref(0), Sym('v'), Sym('Q')], [[Sym('P')]])
  {
    var ts, els, ts', els' := [Sym('P'), Sym('v'), Sym('Q')], NoElements, [Ref(0), Sym('v'), Sym('Q')], [[Sym('P')]];
    PlainDisjunctionStep1Found();
    SweepStep(Atoms, ts, els, 0, 1, 0, ts', els');
  }

  /** `PvQ`, propositions: the leftmost match is `Q`, at 2; it is new and becomes element 1. */
  lemma PlainDisjunctionStep2Found()
    ensures FirstMatch(Atoms, [Ref(0), Sym('v'), Sym('Q')], 0) == Some(2)
    ensures MatchLength(Atoms, [Ref(0), Sym('v'), Sym('Q')], 2) == 1
    ensures [Ref(0), Sym('v'), Ref(1)] == [Ref(0), Sym('v'), Sym('Q')][..2] + [Ref(1)] + [Ref(0), Sym('v'), Sym('Q')][3..]
    ensures [Ref(0), Sym('v'), Sym('Q')][2..3] == [Sym('Q')]
    ensures Intern([[Sym('P')]], [Sym('Q')]).0 == [[Sym('P')], [Sym('Q')]]
    ensures Intern([[Sym('P')]], [Sym('Q')]).1 == 1
  {
    var els, e := [[Sym('P')]], [Sym('Q')];
    assert els[0][0] != e[0];
  }

  /** `PvQ`, propositions: `Q` is new and becomes element 1. */
  lemma PlainDisjunctionStep2()
    requires Admissible([Ref(0), Sym('v'), Sym('Q')], [[Sym('P')]])
    ensures Admissible([Ref(0), Sym('v'), Ref(1)], [[Sym('P')], [Sym('Q')]])
    ensures Sweep(Atoms, [Ref(0), Sym('v'), Sym('Q')], [[Sym('P')]]) == Sweep(Atoms, [Ref(0), Sym('v'), Ref(1)], [[Sym('P')], [Sym('Q')]])
  {
    var ts, els, ts', els' := [Ref(0), Sym('v'), Sym('Q')], [[Sym('P')]], [Ref(0), Sym('v'), Ref(1)], [[Sym('P')], [Sym('Q')]];
    PlainDisjunctionStep2Found();
    SweepStep(Atoms, ts, els, 2, 1, 1, ts', els');
  }

  /** `PvQ`, conjunctions and disjunctions: the leftmost match is `0v1`, at 0; it is new and becomes element 2. */
  lemma PlainDisjunctionStep3Found()
    ensures FirstMatch(Junctions, [Ref(0), Sym('v'), Ref(1)], 0) == Some(0)
    ensures MatchLength(Junctions, [Ref(0), Sym('v'), Ref(1)], 0) == 3
    ensures [Ref(2)] == [Ref(0), Sym('v'), Ref(1)][..0] + [Ref(2)] + [Ref(0), Sym('v'), Ref(1)][3..]
    ensures [Ref(0), Sym('v'), Ref(1)][0..3] == [Ref(0), Sym('v'), Ref(1)]
    ensures Intern([[Sym('P')], [Sym('Q')]], [Ref(0), Sym('v'), Ref(1)]).0 == [[Sym('P')], [Sym('Q')], [Ref(0), Sym('v'), Ref(1)]]
    ensures Intern([[Sym('P')], [Sym('Q')]], [Ref(0), Sym('v'), Ref(1)]).1 == 2
  {
    var els, e := [[Sym('P')], [Sym('Q')]], [Ref(0), Sym('v'), Ref(1)];
    assert |els[0]| != |e|;
    assert |els[1]| != |e|;
  }

  /** `PvQ`, conjunctions and disjunctions: `0v1` is new and becomes element 2. */
  lemma PlainDisjunctionStep3()
    requires Admissible([Ref(0), Sym('v'), Ref(1)], [[Sym('P')], [Sym('Q')]])
    ensures Admissible([Ref(2)], [[Sym('P')], [Sym('Q')], [Ref(0), Sym('v'), Ref(1)]])
    ensures Sweep(Junctions, [Ref(0), Sym('v'), Ref(1)], [[Sym('P')], [Sym('Q')]]) == Sweep(Junctions, [Ref(2)], [[Sym('P')], [Sym('Q')], [Ref(0), Sym('v'), Ref(1)]])
  {
    var ts, els, ts', els' := [Ref(0), Sym('v'), Ref(1)], [[Sym('P')], [Sym('Q')]], [Ref(2)], [[Sym('P')], [Sym('Q')], [Ref(0), Sym('v'), Ref(1)]];
    PlainDisjunctionStep3Found();
    SweepStep(Junctions, ts, els, 0, 3, 2, ts', els');
  }

  /** `PvQ`, rule 0 (propositions): 2 substitutions. */
  lemma PlainDisjunctionAtoms()
    requires Admissible([Sym('P'), Sym('v'), Sym('Q')], NoElements)
    ensures Admissible([Ref(0), Sym('v'), Ref(1)], [[Sym('P')], [Sym('Q')]])
    ensures Sweep(Atoms, [Sym('P'), Sym('v'), Sym('Q')], NoElements) == Success(Flat([Ref(0), Sym('v'), Ref(1)], [[Sym('P')], [Sym('Q')]]))
  {
    var ts, els := [Ref(0), Sym('v'), Ref(1)], [[Sym('P')], [Sym('Q')]];
    PlainDisjunctionStep1();
    PlainDisjunctionStep2();
    PlainDisjunctionDone();
    SweepStops(Atoms, ts, els);
  }

  /** `PvQ`, rule 1 (groups): nothing matches. */
  lemma PlainDisjunctionGroups()
    requires Admissible([Ref(0), Sym('v'), Ref(1)], [[Sym('P')], [Sym('Q')]])
    ensures Admissible([Ref(0), Sym('v'), Ref(1)], [[Sym('P')], [Sym('Q')]])
    ensures Sweep(Groups, [Ref(0), Sym('v'), Ref(1)], [[Sym('P')], [Sym('Q')]]) == Success(Flat([Ref(0), Sym('v'), Ref(1)], [[Sym('P')], [Sym('Q')]]))
  {
    var ts, els := [Ref(0), Sym('v'), Ref(1)], [[Sym('P')], [Sym('Q')]];
    PlainDisjunctionDone();
    SweepStops(Groups, ts, els);
  }

  /** `PvQ`, rule 2 (negations): nothing matches. */
  lemma PlainDisjunctionNegations()
    requires Admissible([Ref(0), Sym('v'), Ref(1)], [[Sym('P')], [Sym('Q')]])
    ensures Admissible([Ref(0), Sym('v'), Ref(1)], [[Sym('P')], [Sym('Q')]])
    ensures Sweep(Negations, [Ref(0), Sym('v'), Ref(1)], [[Sym('P')], [Sym('Q')]]) == Success(Flat([Ref(0), Sym('v'), Ref(1)], [[Sym('P')], [Sym('Q')]]))
  {
    var ts, els := [Ref(0), Sym('v'), Ref(1)], [[Sym('P')], [Sym('Q')]];
    PlainDisjunctionDone();
    SweepStops(Negations, ts, els);
  }

  /** `PvQ`, rule 3 (conjunctions and disjunctions): 1 substitution. */
  lemma PlainDisjunctionJunctions()
    requires Admissible([Ref(0), Sym('v'), Ref(1)], [[Sym('P')], [Sym('Q')]])
    ensures Admissible([Ref(2)], [[Sym('P')], [Sym('Q')], [Ref(0), Sym('v'), Ref(1)]])
    ensures Sweep(Junctions, [Ref(0), Sym('v'), Ref(1)], [[Sym('P')], [Sym('Q')]]) == Success(Flat([Ref(2)], [[Sym('P')], [Sym('Q')], [Ref(0), Sym('v'), Ref(1)]]))
  {
    var ts, els := [Ref(2)], [[Sym('P')], [Sym('Q')], [Ref(0), Sym('v'), Ref(1)]];
    PlainDisjunctionStep3();
    PlainDisjunctionDone();
    SweepStops(Junctions, ts, els);
  }

  /** `PvQ`, rule 4 (implications): nothing matches. */
  lemma PlainDisjunctionImplications()
    requires Admissible([Ref(2)], [[Sym('P')], [Sym('Q')], [Ref(0), Sym('v'), Ref(1)]])
    ensures Admissible([Ref(2)], [[Sym('P')], [Sym('Q')], [Ref(0), Sym('v'), Ref(1)]])
    ensures Sweep(Implications, [Ref(2)], [[Sym('P')], [Sym('Q')], [Ref(0), Sym('v'), Ref(1)]]) == Success(Flat([Ref(2)], [[Sym('P')], [Sym('Q')], [Ref(0), Sym('v'), Ref(1)]]))
  {
    var ts, els := [Ref(2)], [[Sym('P')], [Sym('Q')], [Ref(0), Sym('v'), Ref(1)]];
    PlainDisjunctionDone();
    SweepStops(Implications, ts, els);
  }

  /** `PvQ`: once each rule has been swept, nothing is left for it to match. */
  lemma PlainDisjunctionDone()
    ensures FirstMatch(Atoms, [Ref(0), Sym('v'), Ref(1)], 0) == None
    ensures FirstMatch(Groups, [Ref(0), Sym('v'), Ref(1)], 0) == None
    ensures FirstMatch(Negations, [Ref(0), Sym('v'), Ref(1)], 0) == None
    ensures FirstMatch(Junctions, [Ref(2)], 0) == None
    ensures FirstMatch(Implications, [Ref(2)], 0) == None
  {
  }

  /** `PvQ` flattens to element 2. */
  lemma PlainDisjunctionFlattens()
    ensures Flatten([Sym('P'), Sym('v'), Sym('Q')], NoElements) == Success(Analysis([[Sym('P')], [Sym('Q')], [Ref(0), Sym('v'), Ref(1)]], 2))
  {
    var ts, els := [Sym('P'), Sym('v'), Sym('Q')], NoElements;
    var f1 := Flat([Ref(0), Sym('v'), Ref(1)], [[Sym('P')], [Sym('Q')]]);
    var f2 := Flat([Ref(0), Sym('v'), Ref(1)], [[Sym('P')], [Sym('Q')]]);
    var f3 := Flat([Ref(0), Sym('v'), Ref(1)], [[Sym('P')], [Sym('Q')]]);
    var f4 := Flat([Ref(2)], [[Sym('P')], [Sym('Q')], [Ref(0), Sym('v'), Ref(1)]]);
    var f5 := Flat([Ref(2)], [[Sym('P')], [Sym('Q')], [Ref(0), Sym('v'), Ref(1)]]);
    PlainDisjunctionAtoms();
    PlainDisjunctionGroups();
    PlainDisjunctionNegations();
    PlainDisjunctionJunctions();
    PlainDisjunctionImplications();
    FlattenOfRules(ts, els, f1, f2, f3, f4, f5, 2);
  }


  // ---------------------------------------------------------------------
  // `(P)>Q`
  // ---------------------------------------------------------------------

  /** In `(P)>Q`, the content `0` of a group, rule 0 (propositions): nothing matches. */
  lemma GroupedAntecedentGroup3Atoms()
    requires Admissible([Ref(0)], [[Sym('P')], [Sym('Q')]])
    ensures Admissible([Ref(0)], [[Sym('P')], [Sym('Q')]])
    ensures Sweep(Atoms, [Ref(0)], [[Sym('P')], [Sym('Q')]]) == Success(Flat([Ref(0)], [[Sym('P')], [Sym('Q')]]))
  {
    var ts, els := [Ref(0)], [[Sym('P')], [Sym('Q')]];
    GroupedAntecedentGroup3Done();
    SweepStops(Atoms, ts, els);
  }

  /** In `(P)>Q`, the content `0` of a group, rule 1 (groups): nothing matches. */
  lemma GroupedAntecedentGroup3Groups()
    requires Admissible([Ref(0)], [[Sym('P')], [Sym('Q')]])
    ensures Admissible([Ref(0)], [[Sym('P')], [Sym('Q')]])
    ensures Sweep(Groups, [Ref(0)], [[Sym('P')], [Sym('Q')]]) == Success(Flat([Ref(0)], [[Sym('P')], [Sym('Q')]]))
  {
    var ts, els := [Ref(0)], [[Sym('P')], [Sym('Q')]];
    GroupedAntecedentGroup3Done();
    SweepStops(Groups, ts, els);
  }

  /** In `(P)>Q`, the content `0` of a group, rule 2 (negations): nothing matches. */
  lemma GroupedAntecedentGroup3Negations()
    requires Admissible([Ref(0)], [[Sym('P')], [Sym('Q')]])
    ensures Admissible([Ref(0)], [[Sym('P')], [Sym('Q')]])
    ensures Sweep(Negations, [Ref(0)], [[Sym('P')], [Sym('Q')]]) == Success(Flat([Ref(0)], [[Sym('P')], [Sym('Q')]]))
  {
    var ts, els := [Ref(0)], [[Sym('P')], [Sym('Q')]];
    GroupedAntecedentGroup3Done();
    SweepStops(Negations, ts, els);
  }

  /** In `(P)>Q`, the content `0` of a group, rule 3 (conjunctions and disjunctions): nothing matches. */
  lemma GroupedAntecedentGroup3Junctions()
    requires Admissible([Ref(0)], [[Sym('P')], [Sym('Q')]])
    ensures Admissible([Ref(0)], [[Sym('P')], [Sym('Q')]])
    ensures Sweep(Junctions, [Ref(0)], [[Sym('P')], [Sym('Q')]]) == Success(Flat([Ref(0)], [[Sym('P')], [Sym('Q')]]))
  {
    var ts, els := [Ref(0)], [[Sym('P')], [Sym('Q')]];
    GroupedAntecedentGroup3Done();
    SweepStops(Junctions, ts, els);
  }

  /** In `(P)>Q`, the content `0` of a group, rule 4 (implications): nothing matches. */
  lemma GroupedAntecedentGroup3Implications()
    requires Admissible([Ref(0)], [[Sym('P')], [Sym('Q')]])
    ensures Admissible([Ref(0)], [[Sym('P')], [Sym('Q')]])
    ensures Sweep(Implications, [Ref(0)], [[Sym('P')], [Sym('Q')]]) == Success(Flat([Ref(0)], [[Sym('P')], [Sym('Q')]]))
  {
    var ts, els := [Ref(0)], [[Sym('P')], [Sym('Q')]];
    GroupedAntecedentGroup3Done();
    SweepStops(Implications, ts, els);
  }

  /** In `(P)>Q`, the content `0` of a group: once each rule has been swept, nothing is left for it to match. */
  lemma GroupedAntecedentGroup3Done()
    ensures FirstMatch(Atoms, [Ref(0)], 0) == None
    ensures FirstMatch(Groups, [Ref(0)], 0) == None
    ensures FirstMatch(Negations, [Ref(0)], 0) == None
    ensures FirstMatch(Junctions, [Ref(0)], 0) == None
    ensures FirstMatch(Implications, [Ref(0)], 0) == None
  {
  }

  /** In `(P)>Q`, the content `0` of a group flattens to element 0. */
  lemma GroupedAntecedentGroup3Flattens()
    requires Admissible([Ref(0)], [[Sym('P')], [Sym('Q')]])
    ensures Flatten([Ref(0)], [[Sym('P')], [Sym('Q')]]) == Success(Analysis([[Sym('P')], [Sym('Q')]], 0))
  {
    var ts, els := [Ref(0)], [[Sym('P')], [Sym('Q')]];
    var f1 := Flat([Ref(0)], [[Sym('P')], [Sym('Q')]]);
    var f2 := Flat([Ref(0)], [[Sym('P')], [Sym('Q')]]);
    var f3 := Flat([Ref(0)], [[Sym('P')], [Sym('Q')]]);
    var f4 := Flat([Ref(0)], [[Sym('P')], [Sym('Q')]]);
    var f5 := Flat([Ref(0)], [[Sym('P')], [Sym('Q')]]);
    GroupedAntecedentGroup3Atoms();
    GroupedAntecedentGroup3Groups();
    GroupedAntecedentGroup3Negations();
    GroupedAntecedentGroup3Junctions();
    GroupedAntecedentGroup3Implications();
    FlattenOfRules(ts, els, f1, f2, f3, f4, f5, 0);
  }

  /** `(P)>Q`, propositions: the leftmost match is `P`, at 1; it is new and becomes element 0. */
  lemma GroupedAntecedentStep1Found()
    ensures FirstMatch(Atoms, [Sym('('), Sym('P'), Sym(')'), Sym('>'), Sym('Q')], 0) == Some(1)
    ensures MatchLength(Atoms, [Sym('('), Sym('P'), Sym(')'), Sym('>'), Sym('Q')], 1) == 1
    ensures [Sym('('), Ref(0), Sym(')'), Sym('>'), Sym('Q')] == [Sym('('), Sym('P'), Sym(')'), Sym('>'), Sym('Q')][..1] + [Ref(0)] + [Sym('('), Sym('P'), Sym(')'), Sym('>'), Sym('Q')][2..]
    ensures [Sym('('), Sym('P'), Sym(')'), Sym('>'), Sym('Q')][1..2] == [Sym('P')]
    ensures Intern(NoElements, [Sym('P')]).0 == [[Sym('P')]]
    ensures Intern(NoElements, [Sym('P')]).1 == 0
  {
  }

  /** `(P)>Q`, propositions: `P` is new and becomes element 0. */
  lemma GroupedAntecedentStep1()
    requires Admissible([Sym('('), Sym('P'), Sym(')'), Sym('>'), Sym('Q')], NoElements)
    ensures Admissible([Sym('('), Ref(0), Sym(')'), Sym('>'), Sym('Q')], [[Sym('P')]])
    ensures Sweep(Atoms, [Sym('('), Sym('P'), Sym(')'), Sym('>'), Sym('Q')], NoElements) == Sweep(Atoms, [Sym('('), Ref(0), Sym(')'), Sym('>'), Sym('Q')], [[Sym('P')]])
  {
    var ts, els, ts', els' := [Sym('('), Sym('P'), Sym(')'), Sym('>'), Sym('Q')], NoElements, [Sym('('), Ref(0), Sym(')'), Sym('>'), Sym('Q')], [[Sym('P')]];
    GroupedAntecedentStep1Found();
    SweepStep(Atoms, ts, els, 1, 1, 0, ts', els');
  }

  /** `(P)>Q`, propositions: the leftmost match is `Q`, at 4; it is new and becomes element 1. */
  lemma GroupedAntecedentStep2Found()
    ensures FirstMatch(Atoms, [Sym('('), Ref(0), Sym(')'), Sym('>'), Sym('Q')], 0) == Some(4)
    ensures MatchLength(Atoms, [Sym('('), Ref(0), Sym(')'), Sym('>'), Sym('Q')], 4) == 1
    ensures [Sym('('), Ref(0), Sym(')'), Sym('>'), Ref(1)] == [Sym('('), Ref(0), Sym(')'), Sym('>'), Sym('Q')][..4] + [Ref(1)] + [Sym('('), Ref(0), Sym(')'), Sym('>'), Sym('Q')][5..]
    ensures [Sym('('), Ref(0), Sym(')'), Sym('>'), Sym('Q')][4..5] == [Sym('Q')]
    ensures Intern([[Sym('P')]], [Sym('Q')]).0 == [[Sym('P')], [Sym('Q')]]
    ensures Intern([[Sym('P')]], [Sym('Q')]).1 == 1
  {
    var els, e := [[Sym('P')]], [Sym('Q')];
    assert els[0][0] != e[0];
  }

  /** `(P)>Q`, propositions: `Q` is new and becomes element 1. */
  lemma GroupedAntecedentStep2()
    requires Admissible([Sym('('), Ref(0), Sym(')'), Sym('>'), Sym('Q')], [[Sym('P')]])
    ensures Admissible([Sym('('), Ref(0), Sym(')'), Sym('>'), Ref(1)], [[Sym('P')], [Sym('Q')]])
    ensures Sweep(Atoms, [Sym('('), Ref(0), Sym(')'), Sym('>'), Sym('Q')], [[Sym('P')]]) == Sweep(Atoms, [Sym('('), Ref(0), Sym(')'), Sym('>'), Ref(1)], [[Sym('P')], [Sym('Q')]])
  {
    var ts, els, ts', els' := [Sym('('), Ref(0), Sym(')'), Sym('>'), Sym('Q')], [[Sym('P')]], [Sym('('), Ref(0), Sym(')'), Sym('>'), Ref(1)], [[Sym('P')], [Sym('Q')]];
    GroupedAntecedentStep2Found();
    SweepStep(Atoms, ts, els, 4, 1, 1, ts', els');
  }

  /** `(P)>Q`, groups: the leftmost match is `(0)`, at 0. */
  lemma GroupedAntecedentStep3Found()
    ensures FirstMatch(Groups, [Sym('('), Ref(0), Sym(')'), Sym('>'), Ref(1)], 0) == Some(0)
    ensures MatchLength(Groups, [Sym('('), Ref(0), Sym(')'), Sym('>'), Ref(1)], 0) == 3
    ensures [Ref(2), Sym('>'), Ref(1)] == [Sym('('), Ref(0), Sym(')'), Sym('>'), Ref(1)][..0] + [Ref(2)] + [Sym('('), Ref(0), Sym(')'), Sym('>'), Ref(1)][3..]
    ensures [Sym('('), Ref(0), Sym(')'), Sym('>'), Ref(1)][1..2] == [Ref(0)]
  {
  }

  /** `(P)>Q`: the group element `(P)` is new and becomes element 2. */
  lemma GroupedAntecedentStep3Interned()
    ensures 0 < |[[Sym('P')], [Sym('Q')]]| && [[Sym('P')], [Sym('Q')]][0] == [Sym('P')]
    ensures Intern([[Sym('P')], [Sym('Q')]], [Sym('(')] + [Sym('P')] + [Sym(')')]).0 == [[Sym('P')], [Sym('Q')], [Sym('('), Sym('P'), Sym(')')]]
    ensures Intern([[Sym('P')], [Sym('Q')]], [Sym('(')] + [Sym('P')] + [Sym(')')]).1 == 2
  {
    assert [Sym('(')] + [Sym('P')] + [Sym(')')] == [Sym('('), Sym('P'), Sym(')')];
    var els, e := [[Sym('P')], [Sym('Q')]], [Sym('('), Sym('P'), Sym(')')];
    assert |els[0]| != |e|;
    assert |els[1]| != |e|;
  }

  /** `(P)>Q`, groups: the group at 0 becomes element 2. */
  lemma GroupedAntecedentStep3Substitution()
    requires Admissible([Sym('('), Ref(0), Sym(')'), Sym('>'), Ref(1)], [[Sym('P')], [Sym('Q')]])
    ensures Substitute(Groups, [Sym('('), Ref(0), Sym(')'), Sym('>'), Ref(1)], [[Sym('P')], [Sym('Q')]], 0, 3) == Success(Flat([Ref(2), Sym('>'), Ref(1)], [[Sym('P')], [Sym('Q')], [Sym('('), Sym('P'), Sym(')')]]))
  {
    var ts, els, content := [Sym('('), Ref(0), Sym(')'), Sym('>'), Ref(1)], [[Sym('P')], [Sym('Q')]], [Ref(0)];
    var inner, body := [[Sym('P')], [Sym('Q')]], [Sym('P')];
    var ts', els' := [Ref(2), Sym('>'), Ref(1)], [[Sym('P')], [Sym('Q')], [Sym('('), Sym('P'), Sym(')')]];
    GroupedAntecedentStep3Interned();
    GroupedAntecedentGroup3Flattens();
    GroupedAntecedentStep3Found();
    GroupSubstitution(ts, els, 0, 3, content, inner, 0, body, 2, ts', els');
  }

  /** `(P)>Q`, groups: `(0)` `(P)` is new and becomes element 2. */
  lemma GroupedAntecedentStep3()
    requires Admissible([Sym('('), Ref(0), Sym(')'), Sym('>'), Ref(1)], [[Sym('P')], [Sym('Q')]])
    ensures Admissible([Ref(2), Sym('>'), Ref(1)], [[Sym('P')], [Sym('Q')], [Sym('('), Sym('P'), Sym(')')]])
    ensures Sweep(Groups, [Sym('('), Ref(0), Sym(')'), Sym('>'), Ref(1)], [[Sym('P')], [Sym('Q')]]) == Sweep(Groups, [Ref(2), Sym('>'), Ref(1)], [[Sym('P')], [Sym('Q')], [Sym('('), Sym('P'), Sym(')')]])
  {
    var ts, els, ts', els' := [Sym('('), Ref(0), Sym(')'), Sym('>'), Ref(1)], [[Sym('P')], [Sym('Q')]], [Ref(2), Sym('>'), Ref(1)], [[Sym('P')], [Sym('Q')], [Sym('('), Sym('P'), Sym(')')]];
    GroupedAntecedentStep3Found();
    GroupedAntecedentStep3Substitution();
    SweepBy(Groups, ts, els, 0, 3, ts', els');
  }

  /** `(P)>Q`, implications: the leftmost match is `2>1`, at 0; it is new and becomes element 3. */
  lemma GroupedAntecedentStep4Found()
    ensures FirstMatch(Implications, [Ref(2), Sym('>'), Ref(1)], 0) == Some(0)
    ensures MatchLength(Implications, [Ref(2), Sym('>'), Ref(1)], 0) == 3
    ensures [Ref(3)] == [Ref(2), Sym('>'), Ref(1)][..0] + [Ref(3)] + [Ref(2), Sym('>'), Ref(1)][3..]
    ensures [Ref(2), Sym('>'), Ref(1)][0..3] == [Ref(2), Sym('>'), Ref(1)]
    ensures Intern([[Sym('P')], [Sym('Q')], [Sym('('), Sym('P'), Sym(')')]], [Ref(2), Sym('>'), Ref(1)]).0 == [[Sym('P')], [Sym('Q')], [Sym('('), Sym('P'), Sym(')')], [Ref(2), Sym('>'), Ref(1)]]
    ensures Intern([[Sym('P')], [Sym('Q')], [Sym('('), Sym('P'), Sym(')')]], [Ref(2), Sym('>'), Ref(1)]).1 == 3
  {
    var els, e := [[Sym('P')], [Sym('Q')], [Sym('('), Sym('P'), Sym(')')]], [Ref(2), Sym('>'), Ref(1)];
    assert |els[0]| != |e|;
    assert |els[1]| != |e|;
    assert els[2][0] != e[0];
  }

  /** `(P)>Q`, implications: `2>1` is new and becomes element 3. */
  lemma GroupedAntecedentStep4()
    requires Admissible([Ref(2), Sym('>'), Ref(1)], [[Sym('P')], [Sym('Q')], [Sym('('), Sym('P'), Sym(')')]])
    ensures Admissible([Ref(3)], [[Sym('P')], [Sym('Q')], [Sym('('), Sym('P'), Sym(')')], [Ref(2), Sym('>'), Ref(1)]])
    ensures Sweep(Implications, [Ref(2), Sym('>'), Ref(1)], [[Sym('P')], [Sym('Q')], [Sym('('), Sym('P'), Sym(')')]]) == Sweep(Implications, [Ref(3)], [[Sym('P')], [Sym('Q')], [Sym('('), Sym('P'), Sym(')')], [Ref(2), Sym('>'), Ref(1)]])
  {
    var ts, els, ts', els' := [Ref(2), Sym('>'), Ref(1)], [[Sym('P')], [Sym('Q')], [Sym('('), Sym('P'), Sym(')')]], [Ref(3)], [[Sym('P')], [Sym('Q')], [Sym('('), Sym('P'), Sym(')')], [Ref(2), Sym('>'), Ref(1)]];
    GroupedAntecedentStep4Found();
    SweepStep(Implications, ts, els, 0, 3, 3, ts', els');
  }

  /** `(P)>Q`, rule 0 (propositions): 2 substitutions. */
  lemma GroupedAntecedentAtoms()
    requires Admissible([Sym('('), Sym('P'), Sym(')'), Sym('>'), Sym('Q')], NoElements)
    ensures Admissible([Sym('('), Ref(0), Sym(')'), Sym('>'), Ref(1)], [[Sym('P')], [Sym('Q')]])
    ensures Sweep(Atoms, [Sym('('), Sym('P'), Sym(')'), Sym('>'), Sym('Q')], NoElements) == Success(Flat([Sym('('), Ref(0), Sym(')'), Sym('>'), Ref(1)], [[Sym('P')], [Sym('Q')]]))
  {
    var ts, els := [Sym('('), Ref(0), Sym(')'), Sym('>'), Ref(1)], [[Sym('P')], [Sym('Q')]];
    GroupedAntecedentStep1();
    GroupedAntecedentStep2();
    GroupedAntecedentDone();
    SweepStops(Atoms, ts, els);
  }

  /** `(P)>Q`, rule 1 (groups): 1 substitution. */
  lemma GroupedAntecedentGroups()
    requires Admissible([Sym('('), Ref(0), Sym(')'), Sym('>'), Ref(1)], [[Sym('P')], [Sym('Q')]])
    ensures Admissible([Ref(2), Sym('>'), Ref(1)], [[Sym('P')], [Sym('Q')], [Sym('('), Sym('P'), Sym(')')]])
    ensures Sweep(Groups, [Sym('('), Ref(0), Sym(')'), Sym('>'), Ref(1)], [[Sym('P')], [Sym('Q')]]) == Success(Flat([Ref(2), Sym('>'), Ref(1)], [[Sym('P')], [Sym('Q')], [Sym('('), Sym('P'), Sym(')')]]))
  {
    var ts, els := [Ref(2), Sym('>'), Ref(1)], [[Sym('P')], [Sym('Q')], [Sym('('), Sym('P'), Sym(')')]];
    GroupedAntecedentStep3();
    GroupedAntecedentDone();
    SweepStops(Groups, ts, els);
  }

  /** `(P)>Q`, rule 2 (negations): nothing matches. */
  lemma GroupedAntecedentNegations()
    requires Admissible([Ref(2), Sym('>'), Ref(1)], [[Sym('P')], [Sym('Q')], [Sym('('), Sym('P'), Sym(')')]])
    ensures Admissible([Ref(2), Sym('>'), Ref(1)], [[Sym('P')], [Sym('Q')], [Sym('('), Sym('P'), Sym(')')]])
    ensures Sweep(Negations, [Ref(2), Sym('>'), Ref(1)], [[Sym('P')], [Sym('Q')], [Sym('('), Sym('P'), Sym(')')]]) == Success(Flat([Ref(2), Sym('>'), Ref(1)], [[Sym('P')], [Sym('Q')], [Sym('('), Sym('P'), Sym(')')]]))
  {
    var ts, els := [Ref(2), Sym('>'), Ref(1)], [[Sym('P')], [Sym('Q')], [Sym('('), Sym('P'), Sym(')')]];
    GroupedAntecedentDone();
    SweepStops(Negations, ts, els);
  }

  /** `(P)>Q`, rule 3 (conjunctions and disjunctions): nothing matches. */
  lemma GroupedAntecedentJunctions()
    requires Admissible([Ref(2), Sym('>'), Ref(1)], [[Sym('P')], [Sym('Q')], [Sym('('), Sym('P'), Sym(')')]])
    ensures Admissible([Ref(2), Sym('>'), Ref(1)], [[Sym('P')], [Sym('Q')], [Sym('('), Sym('P'), Sym(')')]])
    ensures Sweep(Junctions, [Ref(2), Sym('>'), Ref(1)], [[Sym('P')], [Sym('Q')], [Sym('('), Sym('P'), Sym(')')]]) == Success(Flat([Ref(2), Sym('>'), Ref(1)], [[Sym('P')], [Sym('Q')], [Sym('('), Sym('P'), Sym(')')]]))
  {
    var ts, els := [Ref(2), Sym('>'), Ref(1)], [[Sym('P')], [Sym('Q')], [Sym('('), Sym('P'), Sym(')')]];
    GroupedAntecedentDone();
    SweepStops(Junctions, ts, els);
  }

  /** `(P)>Q`, rule 4 (implications): 1 substitution. */
  lemma GroupedAntecedentImplications()
    requires Admissible([Ref(2), Sym('>'), Ref(1)], [[Sym('P')], [Sym('Q')], [Sym('('), Sym('P'), Sym(')')]])
    ensures Admissible([Ref(3)], [[Sym('P')], [Sym('Q')], [Sym('('), Sym('P'), Sym(')')], [Ref(2), Sym('>'), Ref(1)]])
    ensures Sweep(Implications, [Ref(2), Sym('>'), Ref(1)], [[Sym('P')], [Sym('Q')], [Sym('('), Sym('P'), Sym(')')]]) == Success(Flat([Ref(3)], [[Sym('P')], [Sym('Q')], [Sym('('), Sym('P'), Sym(')')], [Ref(2), Sym('>'), Ref(1)]]))
  {
    var ts, els := [Ref(3)], [[Sym('P')], [Sym('Q')], [Sym('('), Sym('P'), Sym(')')], [Ref(2), Sym('>'), Ref(1)]];
    GroupedAntecedentStep4();
    GroupedAntecedentDone();
    SweepStops(Implications, ts, els);
  }

  /** `(P)>Q`: once each rule has been swept, nothing is left for it to match. */
  lemma GroupedAntecedentDone()
    ensures FirstMatch(Atoms, [Sym('('), Ref(0), Sym(')'), Sym('>'), Ref(1)], 0) == None
    ensures FirstMatch(Groups, [Ref(2), Sym('>'), Ref(1)], 0) == None
    ensures FirstMatch(Negations, [Ref(2), Sym('>'), Ref(1)], 0) == None
    ensures FirstMatch(Junctions, [Ref(2), Sym('>'), Ref(1)], 0) == None
    ensures FirstMatch(Implications, [Ref(3)], 0) == None
  {
  }

  /** `(P)>Q` flattens to element 3. */
  lemma GroupedAntecedentFlattens()
    ensures Flatten([Sym('('), Sym('P'), Sym(')'), Sym('>'), Sym('Q')], NoElements) == Success(Analysis([[Sym('P')], [Sym('Q')], [Sym('('), Sym('P'), Sym(')')], [Ref(2), Sym('>'), Ref(1)]], 3))
  {
    var ts, els := [Sym('('), Sym('P'), Sym(')'), Sym('>'), Sym('Q')], NoElements;
    var f1 := Flat([Sym('('), Ref(0), Sym(')'), Sym('>'), Ref(1)], [[Sym('P')], [Sym('Q')]]);
    var f2 := Flat([Ref(2), Sym('>'), Ref(1)], [[Sym('P')], [Sym('Q')], [Sym('('), Sym('P'), Sym(')')]]);
    var f3 := Flat([Ref(2), Sym('>'), Ref(1)], [[Sym('P')], [Sym('Q')], [Sym('('), Sym('P'), Sym(')')]]);
    var f4 := Flat([Ref(2), Sym('>'), Ref(1)], [[Sym('P')], [Sym('Q')], [Sym('('), Sym('P'), Sym(')')]]);
    var f5 := Flat([Ref(3)], [[Sym('P')], [Sym('Q')], [Sym('('), Sym('P'), Sym(')')], [Ref(2), Sym('>'), Ref(1)]]);
    GroupedAntecedentAtoms();
    GroupedAntecedentGroups();
    GroupedAntecedentNegations();
    GroupedAntecedentJunctions();
    GroupedAntecedentImplications();
    FlattenOfRules(ts, els, f1, f2, f3, f4, f5, 3);
  }


  // ---------------------------------------------------------------------
  // Whole inputs, parsed
  // ---------------------------------------------------------------------

  /** Once the input flattens to a list and a root inside it, the parse is the tree built from that root. */
  lemma ParseOf(s: string, els: seq<Element>, root: nat)
    requires Flatten(Chars(s), []) == Success(Analysis(els, root)) && root < |els|
    ensures TableOk(els)
    ensures ParseFormulaString(s) == ConstructFormula(els, root, None)
    ensures ParseFormulaStringAsWritten(s) == ConstructFormulaAsWritten(els, root, None)
  {
  }

  /** The input `P&Q&R` flattens to the element list of ChainedConjunction. */
  lemma ChainedConjunctionInput(s: string)
    requires s == "P&Q&R"
    ensures Flatten(Chars(s), []) == Success(Analysis(ChainedConjunction(), 4))
  {
    assert Chars(s) == [Sym('P'), Sym('&'), Sym('Q'), Sym('&'), Sym('R')];
    ChainedConjunctionFlattens();
  }

  /** `P&Q&R`: both `&` share one tier, P&Q is taken first, and the parse is rejected as ambiguous. */
  lemma ChainedConjunctionParses(s: string)
    requires s == "P&Q&R"
    ensures ParseFormulaString(s) == Failure(Ambiguous("P&Q&R"))
  {
    var els := ChainedConjunction();
    ChainedConjunctionInput(s);
    ParseOf(s, els, 4);
    ChainedConjunctionIsAmbiguous(els);
  }

  /** The input `P>S&Q>R` flattens to the element list of ChainedImplication. */
  lemma ChainedImplicationInput(s: string)
    requires s == "P>S&Q>R"
    ensures Flatten(Chars(s), []) == Success(Analysis(ChainedImplication(), 6))
  {
    assert Chars(s) == [Sym('P'), Sym('>'), Sym('S'), Sym('&'), Sym('Q'), Sym('>'), Sym('R')];
    ChainedImplicationFlattens();
  }

  /** `P>S&Q>R`: `&` binds before `>`, P>S&Q is taken first, and the parse is rejected as ambiguous. */
  lemma ChainedImplicationParses(s: string)
    requires s == "P>S&Q>R"
    ensures ParseFormulaString(s) == Failure(Ambiguous("P>S&Q>R"))
  {
    var els := ChainedImplication();
    ChainedImplicationInput(s);
    ParseOf(s, els, 6);
    ChainedImplicationIsAmbiguous(els);
  }

  /** The input `P&Qv-R` flattens to the element list of MixedJunction. */
  lemma MixedJunctionInput(s: string)
    requires s == "P&Qv-R"
    ensures Flatten(Chars(s), []) == Success(Analysis(MixedJunction(), 5))
  {
    assert Chars(s) == [Sym('P'), Sym('&'), Sym('Q'), Sym('v'), Sym('-'), Sym('R')];
    MixedJunctionFlattens();
  }

  /** `P&Qv-R`: `-` binds first, `&` and `v` then go left to right, and the parse is rejected as ambiguous. */
  lemma MixedJunctionParses(s: string)
    requires s == "P&Qv-R"
    ensures ParseFormulaString(s) == Failure(Ambiguous("P&Qv-R"))
  {
    var els := MixedJunction();
    MixedJunctionInput(s);
    ParseOf(s, els, 5);
    MixedJunctionIsAmbiguous(els);
  }

  /** The input `P>(P>Q)` flattens to the element list of NestedImplication. */
  lemma NestedImplicationInput(s: string)
    requires s == "P>(P>Q)"
    ensures Flatten(Chars(s), []) == Success(Analysis(NestedImplication(), 4))
  {
    assert Chars(s) == [Sym('P'), Sym('>'), Sym('('), Sym('P'), Sym('>'), Sym('Q'), Sym(')')];
    NestedImplicationFlattens();
  }

  /** `P>(P>Q)` parses to P implies the kept group P>Q, and its string is the input. */
  lemma NestedImplicationParses(s: string)
    requires s == "P>(P>Q)"
    ensures var pq := Node(Implication(Leaf('P'), Leaf('Q')), true, "(P>Q)");
      ParseFormulaString(s) == Success(Node(Implication(Leaf('P'), pq), false, "P>(P>Q)"))
  {
    var els := NestedImplication();
    NestedImplicationInput(s);
    ParseOf(s, els, 4);
    NestedImplicationKeepsGroup(els);
  }

  /** The input `(P>(P>Q))` flattens to the element list of WrappedNested. */
  lemma WrappedNestedInput(s: string)
    requires s == "(P>(P>Q))"
    ensures Flatten(Chars(s), []) == Success(Analysis(WrappedNested(), 5))
  {
    assert Chars(s) == [Sym('('), Sym('P'), Sym('>'), Sym('('), Sym('P'), Sym('>'), Sym('Q'), Sym(')'), Sym(')')];
    WrappedNestedFlattens();
  }

  /** `(P>(P>Q))` parses to the same tree as `P>(P>Q)`: the outer parentheses go, and the reparsed string is `P>(P>Q)`. */
  lemma WrappedNestedParses(s: string)
    requires s == "(P>(P>Q))"
    ensures var pq := Node(Implication(Leaf('P'), Leaf('Q')), true, "(P>Q)");
      ParseFormulaString(s) == Success(Node(Implication(Leaf('P'), pq), false, "P>(P>Q)"))
    ensures Reparse(s) == Success("P>(P>Q)")
  {
    var els := WrappedNested();
    WrappedNestedInput(s);
    ParseOf(s, els, 5);
    WrappedNestedDropsGroup(els);
  }

  /** The input `P>((P>Q))` flattens to the element list of DoubledGroup. */
  lemma DoubledGroupInput(s: string)
    requires s == "P>((P>Q))"
    ensures Flatten(Chars(s), []) == Success(Analysis(DoubledGroup(), 5))
  {
    assert Chars(s) == [Sym('P'), Sym('>'), Sym('('), Sym('('), Sym('P'), Sym('>'), Sym('Q'), Sym(')'), Sym(')')];
    DoubledGroupFlattens();
  }

  /**
   * `P>((P>Q))` parses to the tree of `P>(P>Q)`. Built as the source
   * builds it, its string keeps both layers, `P>((P>Q))`; with one layer
   * kept, it is `P>(P>Q)`.
   */
  lemma DoubledGroupParses(s: string)
    requires s == "P>((P>Q))"
    ensures var pq := Node(Implication(Leaf('P'), Leaf('Q')), true, "(P>Q)");
      ParseFormulaString(s) == Success(Node(Implication(Leaf('P'), pq), false, "P>(P>Q)"))
    ensures var pq := Node(Implication(Leaf('P'), Leaf('Q')), true, "((P>Q))");
      ParseFormulaStringAsWritten(s) == Success(Node(Implication(Leaf('P'), pq), false, "P>((P>Q))"))
  {
    var els := DoubledGroup();
    DoubledGroupInput(s);
    ParseOf(s, els, 5);
    DoubledGroupKeepsOneLayer(els);
    DoubledGroupAsWritten(els);
  }

  /** The input `P` flattens to the one element P. */
  lemma LonePInput(s: string)
    requires s == "P"
    ensures Flatten(Chars(s), []) == Success(Analysis([[Sym('P')]], 0))
  {
    assert Chars(s) == [Sym('P')];
    LonePFlattens();
  }

  /** `P` parses to its leaf. */
  lemma LonePParses(s: string)
    requires s == "P"
    ensures ParseFormulaString(s) == Success(Leaf('P'))
    ensures Reparse(s) == Success("P")
  {
    var els: seq<Element> := [[Sym('P')]];
    LonePInput(s);
    ParseOf(s, els, 0);
    LoneAtomBuilds(els, 'P');
  }

  /** The input `Q` flattens to the one element Q. */
  lemma LoneQInput(s: string)
    requires s == "Q"
    ensures Flatten(Chars(s), []) == Success(Analysis([[Sym('Q')]], 0))
  {
    assert Chars(s) == [Sym('Q')];
    LoneQFlattens();
  }

  /** `Q` parses to its leaf. */
  lemma LoneQParses(s: string)
    requires s == "Q"
    ensures ParseFormulaString(s) == Success(Leaf('Q'))
    ensures Reparse(s) == Success("Q")
  {
    var els: seq<Element> := [[Sym('Q')]];
    LoneQInput(s);
    ParseOf(s, els, 0);
    LoneAtomBuilds(els, 'Q');
  }

  /** The input `P>Q` flattens to the element list of PlainImplication. */
  lemma PlainImplicationInput(s: string)
    requires s == "P>Q"
    ensures Flatten(Chars(s), []) == Success(Analysis(PlainImplication(), 2))
  {
    assert Chars(s) == [Sym('P'), Sym('>'), Sym('Q')];
    PlainImplicationFlattens();
  }

  /** `P>Q` parses to the Implication of P and Q, and its string is the input. */
  lemma PlainImplicationParses(s: string)
    requires s == "P>Q"
    ensures ParseFormulaString(s) == Success(Node(Implication(Leaf('P'), Leaf('Q')), false, "P>Q"))
  {
    var els := PlainImplication();
    PlainImplicationInput(s);
    ParseOf(s, els, 2);
    PlainImplicationBuilds(els);
  }

  /** The input `(P>Q)` flattens to the element list of GroupedImplication. */
  lemma GroupedImplicationInput(s: string)
    requires s == "(P>Q)"
    ensures Flatten(Chars(s), []) == Success(Analysis(GroupedImplication(), 3))
  {
    assert Chars(s) == [Sym('('), Sym('P'), Sym('>'), Sym('Q'), Sym(')')];
    GroupedImplicationFlattens();
  }

  /** `(P>Q)` parses to the tree of `P>Q`: the outer parentheses go, and the reparsed string is `P>Q`. */
  lemma GroupedImplicationParses(s: string)
    requires s == "(P>Q)"
    ensures ParseFormulaString(s) == Success(Node(Implication(Leaf('P'), Leaf('Q')), false, "P>Q"))
    ensures Reparse(s) == Success("P>Q")
  {
    var els := GroupedImplication();
    GroupedImplicationInput(s);
    ParseOf(s, els, 3);
    GroupedImplicationBuilds(els);
  }

  /** The input `(((P)))` flattens to the element list of TripleGroup. */
  lemma TripleGroupInput(s: string)
    requires s == "(((P)))"
    ensures Flatten(Chars(s), []) == Success(Analysis(TripleGroup(), 3))
  {
    assert Chars(s) == [Sym('('), Sym('('), Sym('('), Sym('P'), Sym(')'), Sym(')'), Sym(')')];
    TripleGroupFlattens();
  }

  /** `(((P)))` parses to the leaf P: all three pairs of parentheses go. */
  lemma TripleGroupParses(s: string)
    requires s == "(((P)))"
    ensures ParseFormulaString(s) == Success(Leaf('P'))
  {
    var els := TripleGroup();
    TripleGroupInput(s);
    ParseOf(s, els, 3);
    TripleGroupDropsAll(els);
  }

  /** The input `(-(R))` flattens to the element list of GroupedNegation. */
  lemma GroupedNegationInput(s: string)
    requires s == "(-(R))"
    ensures Flatten(Chars(s), []) == Success(Analysis(GroupedNegation(), 3))
  {
    assert Chars(s) == [Sym('('), Sym('-'), Sym('('), Sym('R'), Sym(')'), Sym(')')];
    GroupedNegationFlattens();
  }

  /** `(-(R))` parses to the Negation of R, rendered `-R`. */
  lemma GroupedNegationParses(s: string)
    requires s == "(-(R))"
    ensures ParseFormulaString(s) == Success(Node(Negation(Leaf('R')), false, "-R"))
  {
    var els := GroupedNegation();
    GroupedNegationInput(s);
    ParseOf(s, els, 3);
    GroupedNegationDropsGroups(els);
  }

  /** The input `(P&Q)` flattens to the element list of GroupedConjunction. */
  lemma GroupedConjunctionInput(s: string)
    requires s == "(P&Q)"
    ensures Flatten(Chars(s), []) == Success(Analysis(GroupedConjunction(), 3))
  {
    assert Chars(s) == [Sym('('), Sym('P'), Sym('&'), Sym('Q'), Sym(')')];
    GroupedConjunctionFlattens();
  }

  /** `(P&Q)` parses to the Conjunction of P and Q, rendered `P&Q`. */
  lemma GroupedConjunctionParses(s: string)
    requires s == "(P&Q)"
    ensures ParseFormulaString(s) == Success(Node(Conjunction(Leaf('P'), Leaf('Q')), false, "P&Q"))
  {
    var els := GroupedConjunction();
    GroupedConjunctionInput(s);
    ParseOf(s, els, 3);
    GroupedConjunctionDropsGroup(els);
  }

  /** The input `PvQ` flattens to the element list of PlainDisjunction. */
  lemma PlainDisjunctionInput(s: string)
    requires s == "PvQ"
    ensures Flatten(Chars(s), []) == Success(Analysis(PlainDisjunction(), 2))
  {
    assert Chars(s) == [Sym('P'), Sym('v'), Sym('Q')];
    PlainDisjunctionFlattens();
  }

  /** `PvQ` parses to the Disjunction of P and Q. */
  lemma PlainDisjunctionParses(s: string)
    requires s == "PvQ"
    ensures ParseFormulaString(s) == Success(Node(Disjunction(Leaf('P'), Leaf('Q')), false, "PvQ"))
  {
    var els := PlainDisjunction();
    PlainDisjunctionInput(s);
    ParseOf(s, els, 2);
    PlainDisjunctionBuilds(els);
  }

  /** The input `(P)>Q` flattens to the element list of GroupedAntecedent. */
  lemma GroupedAntecedentInput(s: string)
    requires s == "(P)>Q"
    ensures Flatten(Chars(s), []) == Success(Analysis(GroupedAntecedent(), 3))
  {
    assert Chars(s) == [Sym('('), Sym('P'), Sym(')'), Sym('>'), Sym('Q')];
    GroupedAntecedentFlattens();
  }

  /** `(P)>Q` parses to the Implication of P and Q, rendered `P>Q`. */
  lemma GroupedAntecedentParses(s: string)
    requires s == "(P)>Q"
    ensures ParseFormulaString(s) == Success(Node(Implication(Leaf('P'), Leaf('Q')), false, "P>Q"))
  {
    var els := GroupedAntecedent();
    GroupedAntecedentInput(s);
    ParseOf(s, els, 3);
    GroupedAntecedentBuilds(els);
  }

}
