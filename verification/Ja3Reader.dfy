/** Reading a JA3 text back: which number of the hello stands where in it. */
module Ja3Reader {
  import opened Text
  import opened ClientHello
  import opened Ja3

  // ---------------------------------------------------------------- a reader of separated numbers

  function Values(ps: seq<string>): (r: seq<int>)
    ensures |r| == |ps|
  {
    seq(|ps|, i requires 0 <= i < |ps| => Value(ps[i]))
  }

  /** The numbers of a piece: none if it is empty, else those between its dashes. */
  function Numbers(piece: string): seq<int> {
    if piece == "" then [] else Values(Pieces(piece, '-'))
  }

  function Decimals(values: seq<nat>): (ps: seq<string>)
    ensures |ps| == |values|
  {
    seq(|values|, i requires 0 <= i < |values| => Decimal(values[i]))
  }

  lemma {:induction false} JoinIsGlue(values: seq<nat>)
    requires values != []
    ensures Join(values) == Glue(Decimals(values), '-') != ""
  {
    assert Decimal(values[0]) != "";
    if |values| > 1 {
      JoinIsGlue(values[1..]);
      assert Decimals(values)[1..] == Decimals(values[1..]);
    }
  }

  lemma NumbersOfJoin(values: seq<nat>)
    ensures Numbers(Join(values)) == values
  {
    if values != [] {
      var ps := Decimals(values);
      JoinIsGlue(values);
      forall i | 0 <= i < |values| ensures Lacks(ps[i], '-') && Value(ps[i]) == values[i] {
        DecimalLacks(values[i], '-');
        ValueOfDecimal(values[i]);
      }
      PiecesOfGlue(ps, '-');
    }
  }

  /** Five texts without commas, one after the other. */
  lemma FivePieces(a: string, b: string, c: string, d: string, e: string)
    requires Lacks(a, ',') && Lacks(b, ',') && Lacks(c, ',') && Lacks(d, ',') && Lacks(e, ',')
    ensures Pieces(a + [','] + (b + [','] + (c + [','] + (d + [','] + e))), ',') == [a, b, c, d, e]
  {
    GlueTwo(d, [e], ',');
    GlueTwo(c, [d, e], ',');
    GlueTwo(b, [c, d, e], ',');
    GlueTwo(a, [b, c, d, e], ',');
    assert [d] + [e] == [d, e] && [c] + [d, e] == [c, d, e] && [b] + [c, d, e] == [b, c, d, e];
    assert [a] + [b, c, d, e] == [a, b, c, d, e];
    PiecesOfGlue([a, b, c, d, e], ',');
  }

  // ---------------------------------------------------------------- what the text says

  /** A GREASE value has two equal bytes that end in the digit a. */
  predicate IsGrease(v: nat) {
    v < 0x1_0000 && v / 0x100 == v % 0x100 && v % 0x10 == 0xa
  }

  /** The table is the reserved values of section 2 of RFC 8701, all sixteen and no others. */
  lemma GreaseIff(v: nat)
    ensures v in GREASE <==> IsGrease(v)
  {
    if IsGrease(v) {
      var h := v % 0x100 / 0x10;
      assert v == 0x101 * (0x10 * h + 0xa);
      HighDigit(h);
    }
  }

  lemma HighDigit(h: nat)
    requires h < 0x10
    ensures 0x101 * (0x10 * h + 0xa) in GREASE
  {
  }

  /** Leaving GREASE out keeps the values that are not GREASE, in order: that of a concatenation is the concatenation, a
      GREASE value leaves nothing and any other itself. */
  lemma {:induction false} StripMeans(a: seq<nat>, b: seq<nat>, v: nat)
    ensures StripGrease(a + b) == StripGrease(a) + StripGrease(b)
    ensures StripGrease([v]) == if IsGrease(v) then [] else [v]
    ensures StripGrease([]) == []
  {
    GreaseIff(v);
    assert [v][1..] == [];
    if a == [] {
      assert a + b == b;
    } else {
      assert (a + b)[0] == a[0] && (a + b)[1..] == a[1..] + b;
      StripMeans(a[1..], b, v);
    }
  }

  /** A reader that splits at commas and dashes finds five pieces: the version, then the ciphers, the extension types and
      the groups without GREASE, then the point formats. */
  predicate Reads(text: string, version: nat, ciphers: seq<nat>, extensions: seq<nat>, groups: seq<nat>, formats: seq<nat>) {
    var ps := Pieces(text, ',');
    && |ps| == 5 && Value(ps[0]) == version
    && Numbers(ps[1]) == StripGrease(ciphers) && Numbers(ps[2]) == StripGrease(extensions)
    && Numbers(ps[3]) == StripGrease(groups) && Numbers(ps[4]) == formats
  }

  lemma TextReads(f: Fields)
    ensures Reads(Ja3Text(f), f.version, f.ciphers, f.extensions, f.curves, f.formats)
  {
    var c, e, g := StripGrease(f.ciphers), StripGrease(f.extensions), StripGrease(f.curves);
    DecimalLacks(f.version, ',');
    JoinLacksComma(c);
    JoinLacksComma(e);
    JoinLacksComma(g);
    JoinLacksComma(f.formats);
    FivePieces(Decimal(f.version), Join(c), Join(e), Join(g), Join(f.formats));
    ValueOfDecimal(f.version);
    NumbersOfJoin(c);
    NumbersOfJoin(e);
    NumbersOfJoin(g);
    NumbersOfJoin(f.formats);
  }

  // ---------------------------------------------------------------- from the record to the text

  function Types(es: seq<Extension>): (r: seq<nat>)
    ensures |r| == |es|
  {
    seq(|es|, i requires 0 <= i < |es| => TypeOf(es[i]) as nat)
  }

  /** The groups of the last extension that lists some, and the formats likewise. */
  function LastGroups(es: seq<Extension>): seq<nat> {
    if es == [] then []
    else if es[|es| - 1].Groups? then es[|es| - 1].groups
    else LastGroups(es[..|es| - 1])
  }

  function LastFormats(es: seq<Extension>): seq<nat> {
    if es == [] then []
    else if es[|es| - 1].Formats? then es[|es| - 1].formats
    else LastFormats(es[..|es| - 1])
  }

  lemma {:induction false} SaidLast(g: Gathered, front: seq<Extension>, e: Extension)
    ensures Said(g, front + [e]) == Say(Said(g, front), e)
    decreases |front|
  {
    if front == [] {
      assert front + [e] == [e] && [e][1..] == [];
      assert Said(g, [e]) == Said(Say(g, e), []);
    } else {
      assert (front + [e])[0] == front[0] && (front + [e])[1..] == front[1..] + [e];
      SaidLast(Say(g, front[0]), front[1..], e);
    }
  }

  lemma {:induction false} SaidMeans(es: seq<Extension>)
    ensures var said := Said(Gathered([], [], []), es);
            said.extensions == Types(es) && said.curves == LastGroups(es) && said.formats == LastFormats(es)
  {
    if es != [] {
      var front, e := es[..|es| - 1], es[|es| - 1];
      assert es == front + [e];
      SaidMeans(front);
      SaidLast(Gathered([], [], []), front, e);
    }
  }

  /** The text of the record of any well-formed hello, whatever follows the record, reads as the hello's own version,
      ciphers, extension types, groups and formats, in that order. */
  lemma RecordReads(m: Message, trailing: Bytes)
    requires WellFormed(m)
    ensures var text := TextOf(Parse(Encode(m) + trailing));
            text.Some? && Reads(text.value, m.version, m.ciphers, Types(ExtensionsOf(m)), LastGroups(ExtensionsOf(m)),
                                LastFormats(ExtensionsOf(m)))
  {
    ParseInvertsEncode(m, trailing);
    SaidMeans(ExtensionsOf(m));
    TextReads(FieldsOf(m));
  }
}
