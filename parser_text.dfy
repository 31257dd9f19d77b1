/**
 * What the parser of src/models/formulaParser.js preserves: the text a
 * working string stands for. Every handle stands for the text of its
 * element, recursively, so flattening never changes the text. The string of
 * a built tree equals that text once all parentheses are erased from both.
 */
module ParserText {
  import opened Wrappers
  import opened FormulaParser

  /**
   * The text of a working string: a symbol is itself, a handle below
   * `bound` is the text of its element (whose handles lie below the
   * handle itself), any other handle stands for nothing.
   */
  function Expand(els: seq<Element>, ts: seq<Token>, bound: nat): string
    decreases bound, |ts|
  {
    if ts == [] then []
    else
      (match ts[0]
       case Sym(c) => [c]
       case Ref(h) => if h < bound && h < |els| then Expand(els, els[h], h) else [])
      + Expand(els, ts[1..], bound)
  }

  /** The text of a working string against the whole element list. */
  function Text(els: seq<Element>, ts: seq<Token>): string {
    Expand(els, ts, |els|)
  }

  /** A string without its parentheses. */
  function Erase(s: string): string {
    if s == [] then []
    else (if s[0] == '(' || s[0] == ')' then [] else [s[0]]) + Erase(s[1..])
  }

  lemma {:induction false} ExpandAppend(els: seq<Element>, a: seq<Token>, b: seq<Token>, bound: nat)
    ensures Expand(els, a + b, bound) == Expand(els, a, bound) + Expand(els, b, bound)
    decreases |a|
  {
    if a == [] {
      assert a + b == b;
    } else {
      assert (a + b)[0] == a[0];
      assert (a + b)[1..] == a[1..] + b;
      ExpandAppend(els, a[1..], b, bound);
    }
  }

  /** Raising the bound above every handle of the string does not change its text. */
  lemma {:induction false} ExpandBounds(els: seq<Element>, ts: seq<Token>, b1: nat, b2: nat)
    requires RefsBelow(ts, b1) && b1 <= b2
    ensures Expand(els, ts, b1) == Expand(els, ts, b2)
    decreases |ts|
  {
    if ts != [] {
      assert RefsBelow(ts[1..], b1) by {
        forall j | 0 <= j < |ts[1..]| && ts[1..][j].Ref? ensures ts[1..][j].handle < b1 {
          assert ts[1..][j] == ts[j + 1];
        }
      }
      ExpandBounds(els, ts[1..], b1, b2);
    }
  }

  /** Appending elements does not change the text of handles below the old length. */
  lemma {:induction false} ExpandExtends(els: seq<Element>, els': seq<Element>, ts: seq<Token>, bound: nat)
    requires els <= els' && bound <= |els|
    ensures Expand(els, ts, bound) == Expand(els', ts, bound)
    decreases bound, |ts|
  {
    if ts != [] {
      ExpandExtends(els, els', ts[1..], bound);
      if ts[0].Ref? && ts[0].handle < bound {
        assert els'[ts[0].handle] == els[ts[0].handle];
        ExpandExtends(els, els', els[ts[0].handle], ts[0].handle);
      }
    }
  }

  /** In a well-formed list every element mentions only earlier handles. */
  lemma {:induction false} ElementRefsBelow(els: seq<Element>, k: nat)
    requires TableOk(els) && k < |els|
    ensures RefsBelow(els[k], k)
    decreases k
  {
    assert ElementOk(els, k);
    var e := els[k];
    if IsGroup(e) {
      var c := IndexOf(els[..k], GroupContent(e));
      assert els[c] == GroupContent(e);
      ElementRefsBelow(els, c);
      forall j | 0 <= j < |e| && e[j].Ref? ensures e[j].handle < k {
        assert e[j] == GroupContent(e)[j - 1];
      }
    }
  }

  /** The text of a string whose handles all lie below the old length is kept when the list grows. */
  lemma TextExtends(els: seq<Element>, els': seq<Element>, ts: seq<Token>)
    requires els <= els' && RefsBelow(ts, |els|)
    ensures Text(els', ts) == Text(els, ts)
  {
    ExpandBounds(els', ts, |els|, |els'|);
    ExpandExtends(els, els', ts, |els|);
  }

  /** A handle stands for the text of its element. */
  lemma HandleText(els: seq<Element>, h: nat)
    requires TableOk(els) && h < |els|
    ensures Text(els, [Ref(h)]) == Text(els, els[h])
  {
    ElementRefsBelow(els, h);
    ExpandBounds(els, els[h], h, |els|);
    assert [Ref(h)][1..] == [];
    assert Text(els, [Ref(h)]) == Expand(els, els[h], h) + Expand(els, [], |els|);
  }

  lemma SliceRefsBelow(ts: seq<Token>, i: nat, j: nat, n: nat)
    requires i <= j <= |ts| && RefsBelow(ts, n)
    ensures RefsBelow(ts[i..j], n)
  {
    forall m | 0 <= m < j - i && ts[i..j][m].Ref? ensures ts[i..j][m].handle < n {
      assert ts[i..j][m] == ts[i + m];
    }
  }

  /** Splicing in a handle that stands for the match keeps the text of the whole string. */
  lemma SpliceText(ts: seq<Token>, i: nat, len: nat, h: nat, els: seq<Element>, els': seq<Element>)
    requires i + len <= |ts| && els <= els' && RefsBelow(ts, |els|)
    requires Text(els', [Ref(h)]) == Text(els, ts[i..i + len])
    ensures Text(els', Splice(ts, i, len, h)) == Text(els, ts)
  {
    var pre, mid, post := ts[..i], ts[i..i + len], ts[i + len..];
    assert ts == pre + mid + post;
    ExpandAppend(els', pre + [Ref(h)], post, |els'|);
    ExpandAppend(els', pre, [Ref(h)], |els'|);
    ExpandAppend(els, pre + mid, post, |els|);
    ExpandAppend(els, pre, mid, |els|);
    SliceRefsBelow(ts, 0, i, |els|);
    SliceRefsBelow(ts, i + len, |ts|, |els|);
    TextExtends(els, els', pre);
    TextExtends(els, els', post);
  }

  /** `(` + a string + `)` stands for its text in parentheses. */
  lemma WrappedText(els: seq<Element>, content: seq<Token>)
    ensures Text(els, [Sym('(')] + content + [Sym(')')]) == "(" + Text(els, content) + ")"
  {
    ExpandAppend(els, [Sym('(')] + content, [Sym(')')], |els|);
    ExpandAppend(els, [Sym('(')], content, |els|);
    assert [Sym('(')][1..] == [] && [Sym(')')][1..] == [];
  }

  // ---------------------------------------------------------------------
  // Flattening keeps the text
  // ---------------------------------------------------------------------

  /**
   * A group whose content's root stands for the content: the interned group
   * element stands for the parenthesised content, so the splice keeps the text.
   */
  lemma GroupText(ts: seq<Token>, els: seq<Element>, i: nat, len: nat, a: Analysis)
    requires TableOk(els) && RefsBelow(ts, |els|)
    requires i < |ts| && len == MatchLength(Groups, ts, i) && len > 0
    requires els <= a.elements && TableOk(a.elements) && NoDuplicates(a.elements) && a.root < |a.elements|
    requires Text(a.elements, [Ref(a.root)]) == Text(els, ts[i + 1..i + len - 1])
    ensures var e := [Sym('(')] + a.elements[a.root] + [Sym(')')];
      var (els', h) := Intern(a.elements, e);
      Text(els', Splice(ts, i, len, h)) == Text(els, ts)
  {
    var content := ts[i + 1..i + len - 1];
    var e := [Sym('(')] + a.elements[a.root] + [Sym(')')];
    assert ElementOk(a.elements, a.root);
    assert GroupContent(e) == a.elements[a.root];
    assert (a.elements + [e])[..|a.elements|] == a.elements;
    var (els', h) := Intern(a.elements, e);
    InternKeepsTable(a.elements, e);
    ElementRefsBelow(a.elements, a.root);
    assert RefsBelow(e, |a.elements|) by {
      forall j | 0 <= j < |e| && e[j].Ref? ensures e[j].handle < |a.elements| {
        assert e[j] == a.elements[a.root][j - 1];
      }
    }
    HandleText(els', h);
    TextExtends(a.elements, els', e);
    WrappedText(a.elements, a.elements[a.root]);
    HandleText(a.elements, a.root);
    assert ts[i..i + len] == [Sym('(')] + content + [Sym(')')];
    WrappedText(els, content);
    SpliceText(ts, i, len, h, els, els');
  }

  /** Substituting a match that is not a group keeps the text. */
  lemma PlainText(tier: Tier, ts: seq<Token>, els: seq<Element>, i: nat, len: nat)
    requires TableOk(els) && NoDuplicates(els) && RefsBelow(ts, |els|)
    requires i < |ts| && len == MatchLength(tier, ts, i) && len > 0 && tier != Groups
    ensures var (els', h) := Intern(els, ts[i..i + len]);
      Text(els', Splice(ts, i, len, h)) == Text(els, ts)
  {
    var e := ts[i..i + len];
    SliceRefsBelow(ts, i, i + len, |els|);
    assert (els + [e])[..|els|] == els;
    assert e[0] == ts[i] && (len > 1 ==> e[1] == ts[i + 1]) && (len > 2 ==> e[2] == ts[i + 2]);
    var (els', h) := Intern(els, e);
    InternKeepsTable(els, e);
    HandleText(els', h);
    TextExtends(els, els', e);
    SpliceText(ts, i, len, h, els, els');
  }

  /** One substitution keeps the text of the working string. */
  lemma {:induction false} SubstituteText(tier: Tier, ts: seq<Token>, els: seq<Element>, i: nat, len: nat)
    requires TableOk(els) && NoDuplicates(els) && RefsBelow(ts, |els|)
    requires i < |ts| && len == MatchLength(tier, ts, i) && len > 0
    requires Substitute(tier, ts, els, i, len).Success?
    ensures var f := Substitute(tier, ts, els, i, len).value;
      Text(f.elements, f.tokens) == Text(els, ts)
    decreases |ts|, 0, 0
  {
    if tier == Groups {
      var content := ts[i + 1..i + len - 1];
      SliceRefsBelow(ts, i + 1, i + len - 1, |els|);
      FlattenText(content, els);
      GroupText(ts, els, i, len, Flatten(content, els).value);
    } else {
      PlainText(tier, ts, els, i, len);
    }
  }

  /** Repeating one rule keeps the text. */
  lemma {:induction false} SweepText(tier: Tier, ts: seq<Token>, els: seq<Element>)
    requires TableOk(els) && NoDuplicates(els) && RefsBelow(ts, |els|)
    requires Sweep(tier, ts, els).Success?
    ensures var f := Sweep(tier, ts, els).value; Text(f.elements, f.tokens) == Text(els, ts)
    decreases |ts|, 1, AtomCount(ts)
  {
    match FirstMatch(tier, ts, 0)
    case None =>
    case Some(i) =>
      var f := Substitute(tier, ts, els, i, MatchLength(tier, ts, i)).value;
      SubstituteText(tier, ts, els, i, MatchLength(tier, ts, i));
      SweepText(tier, f.tokens, f.elements);
  }

  /** The rules from k on keep the text. */
  lemma {:induction false} PassesText(k: nat, ts: seq<Token>, els: seq<Element>)
    requires k <= 5
    requires TableOk(els) && NoDuplicates(els) && RefsBelow(ts, |els|)
    requires Passes(k, ts, els).Success?
    ensures var f := Passes(k, ts, els).value; Text(f.elements, f.tokens) == Text(els, ts)
    decreases |ts|, 2, 5 - k
  {
    if k < 5 {
      var f := Sweep(SubstitutionRules[k], ts, els).value;
      SweepText(SubstitutionRules[k], ts, els);
      PassesText(k + 1, f.tokens, f.elements);
    }
  }

  /** The root of a successful analysis stands for the whole analysed string. */
  lemma {:induction false} FlattenText(ts: seq<Token>, els: seq<Element>)
    requires TableOk(els) && NoDuplicates(els) && RefsBelow(ts, |els|)
    requires ts != [] && Flatten(ts, els).Success?
    ensures var a := Flatten(ts, els).value; Text(a.elements, [Ref(a.root)]) == Text(els, ts)
    decreases |ts|, 3, 0
  {
    PassesText(0, ts, els);
    var f := Passes(0, ts, els).value;
    assert f.tokens == [Ref(Flatten(ts, els).value.root)];
  }

  // ---------------------------------------------------------------------
  // Building the tree keeps the text, up to parentheses
  // ---------------------------------------------------------------------

  lemma {:induction false} EraseAppend(a: string, b: string)
    ensures Erase(a + b) == Erase(a) + Erase(b)
    decreases |a|
  {
    if a == [] {
      assert a + b == b;
    } else {
      assert (a + b)[0] == a[0];
      assert (a + b)[1..] == a[1..] + b;
      EraseAppend(a[1..], b);
    }
  }

  /** Parentheses around a string vanish when they are erased. */
  lemma EraseWrap(parenthesised: bool, s: string)
    ensures Erase(Wrap(parenthesised, s)) == Erase(s)
  {
    if parenthesised {
      EraseAppend("(" + s, ")");
      EraseAppend("(", s);
      assert Erase(")") == [] && Erase("(") == [] by {
        assert ")"[1..] == [] && "("[1..] == [];
      }
    }
  }

  /** A string of symbols stands for those symbols. */
  lemma {:induction false} CharsText(els: seq<Element>, s: string, bound: nat)
    ensures Expand(els, Chars(s), bound) == s
  {
    if s != [] {
      assert Chars(s)[1..] == Chars(s[1..]);
      CharsText(els, s[1..], bound);
    }
  }

  /** The text of a negation element: `-` and the text of its operand. */
  lemma NegationText(els: seq<Element>, index: nat)
    requires TableOk(els) && index < |els|
    requires NodeTypeOf(els[index]) == Some(NegationNode)
    ensures els[index][1].handle < |els|
    ensures Text(els, els[index]) == "-" + Text(els, els[els[index][1].handle])
  {
    var e := els[index];
    assert ElementOk(els, index);
    assert e == [Sym('-')] + [e[1]];
    ExpandAppend(els, [Sym('-')], [e[1]], |els|);
    HandleText(els, e[1].handle);
    assert [Sym('-')][1..] == [];
  }

  /** The text of a binary element: the text of its left operand, its connective, the text of its right operand. */
  lemma BinaryText(els: seq<Element>, index: nat)
    requires TableOk(els) && index < |els|
    requires NodeTypeOf(els[index]) in {Some(ConjunctionNode), Some(DisjunctionNode), Some(ImplicationNode)}
    ensures els[index][0].handle < |els| && els[index][2].handle < |els| && els[index][1].Sym?
    ensures Text(els, els[index]) ==
      Text(els, els[els[index][0].handle]) + [els[index][1].c] + Text(els, els[els[index][2].handle])
  {
    var e := els[index];
    assert ElementOk(els, index);
    assert e == [e[0]] + [e[1]] + [e[2]];
    ExpandAppend(els, [e[0]] + [e[1]], [e[2]], |els|);
    ExpandAppend(els, [e[0]], [e[1]], |els|);
    HandleText(els, e[0].handle);
    HandleText(els, e[2].handle);
    assert [e[1]][1..] == [];
  }

  /** A group element's text: its centre's text in parentheses. */
  lemma GroupElementText(els: seq<Element>, index: nat)
    requires TableOk(els) && index < |els| && IsGroup(els[index])
    ensures Text(els, els[index]) == "(" + Text(els, els[CenterIndex(els, index)]) + ")"
  {
    var e := els[index];
    assert e == [Sym('(')] + GroupContent(e) + [Sym(')')];
    WrappedText(els, GroupContent(e));
  }

  /**
   * The string of the tree built from an element is the element's text,
   * up to parentheses: erasing them from both gives the same symbols in
   * the same order.
   */
  lemma {:induction false} ConstructKeepsSymbols(els: seq<Element>, index: nat, parent: Option<NodeType>)
    requires TableOk(els) && index < |els|
    requires ConstructFormula(els, index, parent).Success?
    ensures Erase(ConstructFormula(els, index, parent).value.text) == Erase(Text(els, els[index]))
    decreases index
  {
    var e := els[index];
    var n := ConstructFormula(els, index, parent).value;
    assert ElementOk(els, index);
    match NodeTypeOf(e)
    case Some(PropositionNode) =>
      assert Text(els, e) == [e[0].c] + Expand(els, e[1..], |els|);
    case Some(ParenthesesNode) =>
      var c := CenterIndex(els, index);
      var center := ConstructFormula(els, c, parent).value;
      ConstructKeepsSymbols(els, c, parent);
      EraseWrap(n.hasParentheses, Body(center.formula));
      EraseWrap(center.hasParentheses, Body(center.formula));
      GroupElementText(els, index);
      EraseWrap(true, Text(els, els[c]));
    case Some(NegationNode) =>
      var right := ConstructFormula(els, e[1].handle, Some(NegationNode)).value;
      ConstructKeepsSymbols(els, e[1].handle, Some(NegationNode));
      NegationText(els, index);
      EraseAppend("-", right.text);
      EraseAppend("-", Text(els, els[e[1].handle]));
    case Some(junction) =>
      var left := ConstructFormula(els, e[0].handle, Some(junction)).value;
      var right := ConstructFormula(els, e[2].handle, Some(junction)).value;
      ConstructKeepsSymbols(els, e[0].handle, Some(junction));
      ConstructKeepsSymbols(els, e[2].handle, Some(junction));
      BinaryText(els, index);
      assert n.text == left.text + [e[1].c] + right.text;
      EraseAppend(left.text + [e[1].c], right.text);
      EraseAppend(left.text, [e[1].c]);
      EraseAppend(Text(els, els[e[0].handle]) + [e[1].c], Text(els, els[e[2].handle]));
      EraseAppend(Text(els, els[e[0].handle]), [e[1].c]);
  }

  /** The as-written construction keeps the symbols too; only its parentheses differ. */
  lemma {:induction false} AsWrittenKeepsSymbols(els: seq<Element>, index: nat, parent: Option<NodeType>)
    requires TableOk(els) && index < |els|
    requires ConstructFormulaAsWritten(els, index, parent).Success?
    ensures Erase(ConstructFormulaAsWritten(els, index, parent).value.text) == Erase(Text(els, els[index]))
    decreases index
  {
    var e := els[index];
    var n := ConstructFormulaAsWritten(els, index, parent).value;
    assert ElementOk(els, index);
    match NodeTypeOf(e)
    case Some(PropositionNode) =>
      assert Text(els, e) == [e[0].c] + Expand(els, e[1..], |els|);
    case Some(ParenthesesNode) =>
      var c := CenterIndex(els, index);
      var center := ConstructFormulaAsWritten(els, c, parent).value;
      AsWrittenKeepsSymbols(els, c, parent);
      EraseWrap(n.hasParentheses, center.text);
      GroupElementText(els, index);
      EraseWrap(true, Text(els, els[c]));
    case Some(NegationNode) =>
      var right := ConstructFormulaAsWritten(els, e[1].handle, Some(NegationNode)).value;
      AsWrittenKeepsSymbols(els, e[1].handle, Some(NegationNode));
      NegationText(els, index);
      EraseAppend("-", right.text);
      EraseAppend("-", Text(els, els[e[1].handle]));
    case Some(junction) =>
      var left := ConstructFormulaAsWritten(els, e[0].handle, Some(junction)).value;
      var right := ConstructFormulaAsWritten(els, e[2].handle, Some(junction)).value;
      AsWrittenKeepsSymbols(els, e[0].handle, Some(junction));
      AsWrittenKeepsSymbols(els, e[2].handle, Some(junction));
      BinaryText(els, index);
      assert n.text == left.text + [e[1].c] + right.text;
      EraseAppend(left.text + [e[1].c], right.text);
      EraseAppend(left.text, [e[1].c]);
      EraseAppend(Text(els, els[e[0].handle]) + [e[1].c], Text(els, els[e[2].handle]));
      EraseAppend(Text(els, els[e[0].handle]), [e[1].c]);
  }

  /** The root of the analysis of a non-empty input stands for the input. */
  lemma RootText(s: string)
    requires s != [] && Flatten(Chars(s), []).Success?
    ensures var a := Flatten(Chars(s), []).value;
      a.root < |a.elements| && Text(a.elements, a.elements[a.root]) == s
  {
    var a := Flatten(Chars(s), []).value;
    FlattenText(Chars(s), []);
    CharsText([], s, 0);
    HandleText(a.elements, a.root);
  }

  /**
   * A parsed formula's string is the input with parentheses dropped or
   * kept: the symbols, in order, are exactly those of the input.
   */
  lemma ParseKeepsSymbols(s: string)
    requires ParseFormulaString(s).Success?
    ensures Erase(ParseFormulaString(s).value.text) == Erase(s)
  {
    var a := Flatten(Chars(s), []).value;
    RootText(s);
    ConstructKeepsSymbols(a.elements, a.root, None);
  }

  /** The same for the as-written parse. */
  lemma ParseAsWrittenKeepsSymbols(s: string)
    requires ParseFormulaStringAsWritten(s).Success?
    ensures Erase(ParseFormulaStringAsWritten(s).value.text) == Erase(s)
  {
    var a := Flatten(Chars(s), []).value;
    RootText(s);
    AsWrittenKeepsSymbols(a.elements, a.root, None);
  }
}
