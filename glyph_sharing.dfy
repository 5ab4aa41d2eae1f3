/**
 * The flyweight demo: a `GlyphFactory` hands out one shared `Glyph` object
 * per (symbol, font, size), caching it in a dictionary under the key
 * `"{symbol}_{font}_{size}"`.  A symbol is a C# `char`, one UTF-16 code
 * unit, and the key is the code units of that text.
 */
module GlyphSharing {
  import opened Text

  class Glyph {
    const symbol: CodeUnit
    const font: string
    const size: int

    constructor(symbol: CodeUnit, font: string, size: int)
      ensures this.symbol == symbol && this.font == font && this.size == size
    {
      this.symbol := symbol;
      this.font := font;
      this.size := size;
    }
  }

  /** The cache key: the symbol, then the code units of `_`, the font, `_` and the size in decimal. */
  function Key(symbol: CodeUnit, font: string, size: int): CodeUnits {
    [symbol] + Utf16("_" + font + "_" + IntToString(size))
  }

  /** Where the shorter tail of two equal `_`-joined strings sits inside the longer one, an `_` shows. */
  lemma UnderscoreInLongerTail(a: string, m: string, b: string, n: string)
    requires a + "_" + m == b + "_" + n
    ensures |m| < |n| ==> n[|n| - |m| - 1] == '_'
  {
    var s := a + "_" + m;
    assert s[|a|] == '_';
    if |m| < |n| {
      assert s[|a|] == n[|n| - |m| - 1];
    }
  }

  /** Two strings each followed by `_` and a text without `_` split only one way. */
  lemma SplitAtLastUnderscore(a: string, m: string, b: string, n: string)
    requires '_' !in m && '_' !in n
    requires a + "_" + m == b + "_" + n
    ensures a == b && m == n
  {
    UnderscoreInLongerTail(a, m, b, n);
    UnderscoreInLongerTail(b, n, a, m);
    var s := a + "_" + m;
    assert a == s[..|a|] == b;
    assert m == s[|a| + 1..] == n;
  }

  lemma NoUnderscoreInNumber(n: int)
    ensures '_' !in IntToString(n)
  {
    var t := IntToString(n);
    assert forall i :: 0 <= i < |t| ==> t[i] != '_';
  }

  /**
   * The key identifies the triple: the symbol is one code unit, the
   * encoding is injective, and the printed size has no `_`, so even a font
   * containing `_` cannot make two triples share a key.
   */
  lemma KeyInjective(s1: CodeUnit, f1: string, n1: int, s2: CodeUnit, f2: string, n2: int)
    requires Key(s1, f1, n1) == Key(s2, f2, n2)
    ensures s1 == s2 && f1 == f2 && n1 == n2
  {
    var t1, t2 := "_" + f1 + "_" + IntToString(n1), "_" + f2 + "_" + IntToString(n2);
    assert Key(s1, f1, n1)[0] == s1 && Key(s2, f2, n2)[0] == s2;
    assert Utf16(t1) == Key(s1, f1, n1)[1..] == Key(s2, f2, n2)[1..] == Utf16(t2);
    Utf16Injective(t1, t2);
    NoUnderscoreInNumber(n1);
    NoUnderscoreInNumber(n2);
    var a1, a2 := "_" + f1, "_" + f2;
    SplitAtLastUnderscore(a1, IntToString(n1), a2, IntToString(n2));
    assert a1[1..] == f1 && a2[1..] == f2;
    IntToStringInjective(n1, n2);
  }

  class GlyphFactory {
    var glyphs: map<CodeUnits, Glyph>
    /** Every (symbol, font, size) requested so far. */
    ghost var requested: set<(CodeUnit, string, int)>

    /** Each cached glyph sits under its own key, and the cache holds exactly one glyph per requested triple. */
    ghost predicate Valid()
      reads this, glyphs.Values
    {
      && (forall k :: k in glyphs ==>
            k == Key(glyphs[k].symbol, glyphs[k].font, glyphs[k].size)
            && (glyphs[k].symbol, glyphs[k].font, glyphs[k].size) in requested)
      && (forall t :: t in requested ==> Key(t.0, t.1, t.2) in glyphs)
      && |glyphs| == |requested|
    }

    constructor()
      ensures Valid() && glyphs == map[] && requested == {}
    {
      glyphs := map[];
      requested := {};
    }

    function GlyphCount(): nat
      reads this
    {
      |glyphs|
    }

    /** A triple was requested before exactly when its key is cached. */
    lemma CachedIffRequested(symbol: CodeUnit, font: string, size: int)
      requires Valid()
      ensures Key(symbol, font, size) in glyphs <==> (symbol, font, size) in requested
    {
      var k := Key(symbol, font, size);
      if k in glyphs {
        var g := glyphs[k];
        KeyInjective(g.symbol, g.font, g.size, symbol, font, size);
      }
    }

    /**
     * The cached glyph for the triple, created and cached on the first
     * request; the glyph always carries the requested symbol, font and size,
     * and the count grows by one exactly on a first request.
     */
    method GetGlyph(symbol: CodeUnit, font: string, size: int) returns (value: Glyph)
      requires Valid()
      modifies this
      ensures Valid() && requested == old(requested) + {(symbol, font, size)}
      ensures value.symbol == symbol && value.font == font && value.size == size
      ensures (symbol, font, size) in old(requested) ==>
        glyphs == old(glyphs) && value == glyphs[Key(symbol, font, size)]
      ensures (symbol, font, size) !in old(requested) ==>
        fresh(value) && glyphs == old(glyphs)[Key(symbol, font, size) := value]
      ensures GlyphCount() == old(GlyphCount()) + (if (symbol, font, size) in old(requested) then 0 else 1)
    {
      var key := Key(symbol, font, size);
      CachedIffRequested(symbol, font, size);
      if key in glyphs {
        value := glyphs[key];
        KeyInjective(value.symbol, value.font, value.size, symbol, font, size);
      } else {
        value := new Glyph(symbol, font, size);
        glyphs := glyphs[key := value];
        requested := requested + {(symbol, font, size)};
      }
    }
  }

  /** The same request twice yields the same object and leaves the cache alone. */
  method RequestTwice(factory: GlyphFactory, symbol: CodeUnit, font: string, size: int) returns (first: Glyph, second: Glyph)
    requires factory.Valid()
    modifies factory
    ensures factory.Valid() && first == second
    ensures factory.GlyphCount() <= old(factory.GlyphCount()) + 1
  {
    first := factory.GetGlyph(symbol, font, size);
    second := factory.GetGlyph(symbol, font, size);
  }

  /** The triples a run of code units asks for, all in one font and size. */
  function Triples(content: CodeUnits, font: string, size: int): (r: set<(CodeUnit, string, int)>)
    ensures forall c :: c in content ==> (c, font, size) in r
  {
    set c | c in content :: (c, font, size)
  }

  lemma TriplesStep(content: CodeUnits, i: nat, font: string, size: int, before: set<(CodeUnit, string, int)>)
    requires i < |content|
    ensures before + Triples(content[..i + 1], font, size) == before + Triples(content[..i], font, size) + {(content[i], font, size)}
  {
    assert content[..i + 1] == content[..i] + [content[i]];
  }

  /** The context object: a shared glyph at a position of its own. */
  class Character {
    const glyph: Glyph
    const positionX: int
    const positionY: int

    constructor(glyph: Glyph, positionX: int, positionY: int)
      ensures this.glyph == glyph && this.positionX == positionX && this.positionY == positionY
    {
      this.glyph := glyph;
      this.positionX := positionX;
      this.positionY := positionY;
    }
  }

  /** One iteration of the test's loop: the shared glyph for `symbol`, placed at a position. */
  method Place(factory: GlyphFactory, symbol: CodeUnit, font: string, size: int, x: int, y: int) returns (character: Character)
    requires factory.Valid()
    modifies factory
    ensures factory.Valid() && factory.requested == old(factory.requested) + {(symbol, font, size)}
    ensures character.glyph.symbol == symbol && character.glyph.font == font && character.glyph.size == size
    ensures character.positionX == x && character.positionY == y
  {
    var glyph := factory.GetGlyph(symbol, font, size);
    character := new Character(glyph, x, y);
  }

  /** The first characters of a line: each holds the glyph for its symbol, at its own column of row 0. */
  predicate LaidOut(document: seq<Character>, content: CodeUnits, font: string, size: int)
  {
    && |document| <= |content|
    && forall j :: 0 <= j < |document| ==>
      && document[j].glyph.symbol == content[j] && document[j].glyph.font == font
      && document[j].glyph.size == size && document[j].positionX == j && document[j].positionY == 0
  }

  lemma LaidOutStep(document: seq<Character>, character: Character, content: CodeUnits, font: string, size: int)
    requires LaidOut(document, content, font, size) && |document| < |content|
    requires character.glyph.symbol == content[|document|] && character.glyph.font == font && character.glyph.size == size
    requires character.positionX == |document| && character.positionY == 0
    ensures LaidOut(document + [character], content, font, size)
  {
  }

  /**
   * The test's loop: one character per code unit of `content` (a
   * `foreach` over a C# string yields its `char`s), left to right on one
   * line, each holding the factory's glyph for its code unit.
   */
  method Typeset(factory: GlyphFactory, content: CodeUnits, font: string, size: int) returns (document: seq<Character>)
    requires factory.Valid()
    modifies factory
    ensures factory.Valid() && factory.requested == old(factory.requested) + Triples(content, font, size)
    ensures |document| == |content| && LaidOut(document, content, font, size)
  {
    ghost var before := factory.requested;
    document := [];
    for i := 0 to |content|
      invariant |document| == i && Progress(factory, document, content, font, size, before)
    {
      document := PlaceNext(factory, document, content, font, size, before);
    }
    assert content[..|content|] == content;
  }

  /** `Typeset`'s loop invariant: the characters placed so far, and the triples they requested. */
  ghost predicate Progress(factory: GlyphFactory, document: seq<Character>, content: CodeUnits, font: string, size: int,
                           before: set<(CodeUnit, string, int)>)
    reads factory, factory.glyphs.Values
  {
    && factory.Valid() && LaidOut(document, content, font, size) && |document| <= |content|
    && factory.requested == before + Triples(content[..|document|], font, size)
  }

  /** One step of `Typeset`: the next character of `content` placed after those already laid out. */
  method PlaceNext(factory: GlyphFactory, document: seq<Character>, content: CodeUnits, font: string, size: int,
                   ghost before: set<(CodeUnit, string, int)>) returns (extended: seq<Character>)
    requires Progress(factory, document, content, font, size, before) && |document| < |content|
    modifies factory
    ensures |extended| == |document| + 1 && Progress(factory, extended, content, font, size, before)
  {
    var i := |document|;
    var character := Place(factory, content[i], font, size, i, 0);
    TriplesStep(content, i, font, size, before);
    LaidOutStep(document, character, content, font, size);
    extended := document + [character];
  }

  /** The code units of "AAABBBCCC". */
  lemma ScenarioUnits(content: CodeUnits)
    requires content == Utf16("AAABBBCCC")
    ensures content == [65, 65, 65, 66, 66, 66, 67, 67, 67]
  {
    Utf16OfBasicPlane("AAABBBCCC");
  }

  /** The test's nine characters need three triples. */
  lemma ScenarioTriples(content: CodeUnits, font: string, size: int)
    requires content == [65, 65, 65, 66, 66, 66, 67, 67, 67]
    ensures Triples(content, font, size) == {(65, font, size), (66, font, size), (67, font, size)}
    ensures |Triples(content, font, size)| == 3
  {
    var r := Triples(content, font, size);
    var e := {(65, font, size), (66, font, size), (67, font, size)};
    forall t
      ensures t in r <==> t in e
    {
      assert t.0 in content <==> t.0 in {65, 66, 67} by {
        assert content[0] == 65 && content[3] == 66 && content[6] == 67;
      }
    }
  }

  /** A fresh factory typesets `content`; it then holds one glyph per distinct triple. */
  method TypesetFresh(content: CodeUnits, font: string, size: int) returns (document: seq<Character>, count: nat)
    ensures |document| == |content| && LaidOut(document, content, font, size)
    ensures count == |Triples(content, font, size)|
  {
    var factory := new GlyphFactory();
    document := Typeset(factory, content, font, size);
    count := factory.GlyphCount();
  }

  /** The demo's test: the nine characters of "AAABBBCCC" in Arial 12 share three glyphs. */
  method GlyphScenario() returns (count: nat)
    ensures count == 3
  {
    var content := Utf16("AAABBBCCC");
    var document;
    ScenarioUnits(content);
    document, count := TypesetFresh(content, "Arial", 12);
    ScenarioTriples(content, "Arial", 12);
  }

  /** An emoji's code units: a high and a low surrogate. */
  lemma GrinningFaceUnits(content: CodeUnits)
    requires content == Utf16("\U{1F600}")
    ensures content == [0xD83D, 0xDE00]
  {
  }

  /**
   * A character beyond U+FFFF is two `char`s: typesetting one emoji places
   * two characters, one per surrogate, each with a glyph of its own.
   */
  method SurrogatePairScenario() returns (document: seq<Character>, count: nat)
    ensures |document| == 2 && count == 2
    ensures document[0].glyph.symbol == 0xD83D && document[1].glyph.symbol == 0xDE00
    ensures document[0].positionX == 0 && document[1].positionX == 1
  {
    var content := Utf16("\U{1F600}");
    GrinningFaceUnits(content);
    document, count := TypesetFresh(content, "Arial", 12);
    assert Triples(content, "Arial", 12) == {(0xD83D, "Arial", 12), (0xDE00, "Arial", 12)};
  }
}
