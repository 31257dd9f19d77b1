/**
 * The pretty-printers of src/models/symbolMapper.js: each replaces the four
 * ASCII connectives of a formula string, one connective after another, with
 * HTML entities or with Unicode glyphs.
 */
module SymbolMapper {

  const Nbsp: char := '\U{00A0}'

  const AndHtml := "&nbsp;&and;&nbsp;"
  const NotHtml := "&not;"
  const OrHtml := "&nbsp;&or;&nbsp;"
  const ImpliesHtml := "&nbsp;&rarr;&nbsp;"

  const AndUnicode := [Nbsp, '\U{2227}', Nbsp]
  const NotUnicode := "\U{00AC}"
  const OrUnicode := [Nbsp, '\U{2228}', Nbsp]
  const ImpliesUnicode := [Nbsp, '\U{2192}', Nbsp]

  /** `s.replace(/(c)/g, t)`: every occurrence of `c`, left to right, becomes `t`. */
  function ReplaceAll(s: string, c: char, t: string): (r: string)
    ensures c !in s ==> r == s
    ensures c !in t ==> c !in r
    ensures forall x :: x in r ==> x in s || x in t
  {
    if s == [] then []
    else (if s[0] == c then t else [s[0]]) + ReplaceAll(s[1..], c, t)
  }

  /** Replacing in a concatenation replaces in each part. */
  lemma {:induction false} ReplaceAllAppend(a: string, b: string, c: char, t: string)
    ensures ReplaceAll(a + b, c, t) == ReplaceAll(a, c, t) + ReplaceAll(b, c, t)
  {
    if a == [] {
      assert a + b == b;
    } else {
      assert (a + b)[1..] == a[1..] + b;
      ReplaceAllAppend(a[1..], b, c, t);
    }
  }

  function MapToHtml(s: string): string {
    ReplaceAll(ReplaceAll(ReplaceAll(ReplaceAll(s, '&', AndHtml), '-', NotHtml), 'v', OrHtml), '>', ImpliesHtml)
  }

  function MapToUnicode(s: string): string {
    ReplaceAll(ReplaceAll(ReplaceAll(ReplaceAll(s, '&', AndUnicode), '-', NotUnicode), 'v', OrUnicode), '>', ImpliesUnicode)
  }

  /** What one character of a formula becomes in HTML. */
  function HtmlGlyph(x: char): string {
    if x == '&' then AndHtml
    else if x == '-' then NotHtml
    else if x == 'v' then OrHtml
    else if x == '>' then ImpliesHtml
    else [x]
  }

  /** What one character of a formula becomes in Unicode. */
  function UnicodeGlyph(x: char): string {
    if x == '&' then AndUnicode
    else if x == '-' then NotUnicode
    else if x == 'v' then OrUnicode
    else if x == '>' then ImpliesUnicode
    else [x]
  }

  /** The glyphs of the characters, one after another. */
  function HtmlOf(s: string): string {
    if s == [] then [] else HtmlGlyph(s[0]) + HtmlOf(s[1..])
  }

  function UnicodeOf(s: string): string {
    if s == [] then [] else UnicodeGlyph(s[0]) + UnicodeOf(s[1..])
  }

  /** No entity contains a connective that a later replacement looks for. */
  lemma EntitiesAvoidLaterConnectives()
    ensures '-' !in AndHtml && 'v' !in AndHtml && '>' !in AndHtml
    ensures '-' !in NotHtml && 'v' !in NotHtml && '>' !in NotHtml
    ensures '-' !in OrHtml && 'v' !in OrHtml && '>' !in OrHtml
    ensures '-' !in ImpliesHtml && 'v' !in ImpliesHtml && '>' !in ImpliesHtml
  {
  }

  /** No glyph contains an ASCII connective. */
  lemma GlyphsAvoidConnectives()
    ensures '&' !in AndUnicode && '-' !in AndUnicode && 'v' !in AndUnicode && '>' !in AndUnicode
    ensures '&' !in NotUnicode && '-' !in NotUnicode && 'v' !in NotUnicode && '>' !in NotUnicode
    ensures '&' !in OrUnicode && '-' !in OrUnicode && 'v' !in OrUnicode && '>' !in OrUnicode
    ensures '&' !in ImpliesUnicode && '-' !in ImpliesUnicode && 'v' !in ImpliesUnicode && '>' !in ImpliesUnicode
  {
  }

  /** One character is replaced or kept. */
  lemma ReplaceOne(x: char, c: char, t: string)
    ensures ReplaceAll([x], c, t) == if x == c then t else [x]
  {
    assert [x][1..] == [];
  }

  /** The four passes on one character give that character's entity. */
  lemma HtmlOfCharacter(x: char)
    ensures MapToHtml([x]) == HtmlGlyph(x)
  {
    EntitiesAvoidLaterConnectives();
    ReplaceOne(x, '&', AndHtml);
    if x != '&' {
      ReplaceOne(x, '-', NotHtml);
      if x != '-' {
        ReplaceOne(x, 'v', OrHtml);
        if x != 'v' {
          ReplaceOne(x, '>', ImpliesHtml);
        }
      }
    }
  }

  lemma UnicodeOfCharacter(x: char)
    ensures MapToUnicode([x]) == UnicodeGlyph(x)
  {
    GlyphsAvoidConnectives();
    ReplaceOne(x, '&', AndUnicode);
    if x != '&' {
      ReplaceOne(x, '-', NotUnicode);
      if x != '-' {
        ReplaceOne(x, 'v', OrUnicode);
        if x != 'v' {
          ReplaceOne(x, '>', ImpliesUnicode);
        }
      }
    }
  }

  /** The HTML mapping distributes over concatenation. */
  lemma MapToHtmlAppend(a: string, b: string)
    ensures MapToHtml(a + b) == MapToHtml(a) + MapToHtml(b)
  {
    ReplaceAllAppend(a, b, '&', AndHtml);
    var a1, b1 := ReplaceAll(a, '&', AndHtml), ReplaceAll(b, '&', AndHtml);
    ReplaceAllAppend(a1, b1, '-', NotHtml);
    var a2, b2 := ReplaceAll(a1, '-', NotHtml), ReplaceAll(b1, '-', NotHtml);
    ReplaceAllAppend(a2, b2, 'v', OrHtml);
    var a3, b3 := ReplaceAll(a2, 'v', OrHtml), ReplaceAll(b2, 'v', OrHtml);
    ReplaceAllAppend(a3, b3, '>', ImpliesHtml);
  }

  /** The Unicode mapping distributes over concatenation. */
  lemma MapToUnicodeAppend(a: string, b: string)
    ensures MapToUnicode(a + b) == MapToUnicode(a) + MapToUnicode(b)
  {
    ReplaceAllAppend(a, b, '&', AndUnicode);
    var a1, b1 := ReplaceAll(a, '&', AndUnicode), ReplaceAll(b, '&', AndUnicode);
    ReplaceAllAppend(a1, b1, '-', NotUnicode);
    var a2, b2 := ReplaceAll(a1, '-', NotUnicode), ReplaceAll(b1, '-', NotUnicode);
    ReplaceAllAppend(a2, b2, 'v', OrUnicode);
    var a3, b3 := ReplaceAll(a2, 'v', OrUnicode), ReplaceAll(b2, 'v', OrUnicode);
    ReplaceAllAppend(a3, b3, '>', ImpliesUnicode);
  }

  /** The chain of replacements is the character-by-character entity mapping. */
  lemma {:induction false} MapToHtmlPerCharacter(s: string)
    ensures MapToHtml(s) == HtmlOf(s)
  {
    if s != [] {
      assert s == [s[0]] + s[1..];
      MapToHtmlAppend([s[0]], s[1..]);
      HtmlOfCharacter(s[0]);
      MapToHtmlPerCharacter(s[1..]);
    }
  }

  /** The chain of replacements is the character-by-character glyph mapping. */
  lemma {:induction false} MapToUnicodePerCharacter(s: string)
    ensures MapToUnicode(s) == UnicodeOf(s)
  {
    if s != [] {
      assert s == [s[0]] + s[1..];
      MapToUnicodeAppend([s[0]], s[1..]);
      UnicodeOfCharacter(s[0]);
      MapToUnicodePerCharacter(s[1..]);
    }
  }

  /** No ASCII connective survives the Unicode mapping. */
  lemma UnicodeHasNoAsciiConnectives(s: string)
    ensures '&' !in MapToUnicode(s) && '-' !in MapToUnicode(s)
    ensures 'v' !in MapToUnicode(s) && '>' !in MapToUnicode(s)
  {
    GlyphsAvoidConnectives();
    var s1 := ReplaceAll(s, '&', AndUnicode);
    var s2 := ReplaceAll(s1, '-', NotUnicode);
    var s3 := ReplaceAll(s2, 'v', OrUnicode);
    assert '&' !in s1 && '&' !in s2 && '&' !in s3;
    assert '-' !in s2 && '-' !in s3;
  }

  /** Only the connectives `-`, `v` and `>` disappear in HTML; `&` remains as the start of every entity. */
  lemma HtmlHasNoBareConnectives(s: string)
    ensures '-' !in MapToHtml(s) && 'v' !in MapToHtml(s) && '>' !in MapToHtml(s)
  {
    EntitiesAvoidLaterConnectives();
    var s1 := ReplaceAll(s, '&', AndHtml);
    var s2 := ReplaceAll(s1, '-', NotHtml);
    var s3 := ReplaceAll(s2, 'v', OrHtml);
    assert '-' !in s2 && '-' !in s3;
  }

  /** Text without connectives (propositions and parentheses) passes through both mappings unchanged. */
  lemma PlainTextUnchanged(s: string)
    requires '&' !in s && '-' !in s && 'v' !in s && '>' !in s
    ensures MapToHtml(s) == s && MapToUnicode(s) == s
  {
  }

  /** Escaping `&` after the negation entity would escape the entity's own `&`. */
  lemma AmpersandMustComeFirst()
    ensures ReplaceAll(ReplaceAll("-", '-', NotHtml), '&', AndHtml) != MapToHtml("-")
  {
    HtmlOfCharacter('-');
    ReplaceOne('-', '-', NotHtml);
    assert NotHtml == ['&'] + "not;";
    ReplaceAllAppend(['&'], "not;", '&', AndHtml);
    ReplaceOne('&', '&', AndHtml);
    assert '&' !in "not;";
    assert |ReplaceAll(NotHtml, '&', AndHtml)| == |AndHtml| + 4;
  }
}
