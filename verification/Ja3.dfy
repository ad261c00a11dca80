/** The JA3 text of a ClientHello before hashing: what it is insensitive to and what it tells apart. */
module Ja3 {
  import opened Options
  import opened Text
  import opened ClientHello

  /** The sixteen GREASE values of RFC 8701 section 2. */
  const GREASE: set<nat> := {0x0a0a, 0x1a1a, 0x2a2a, 0x3a3a, 0x4a4a, 0x5a5a, 0x6a6a, 0x7a7a,
                             0x8a8a, 0x9a9a, 0xaaaa, 0xbaba, 0xcaca, 0xdada, 0xeaea, 0xfafa}

  function StripGrease(values: seq<nat>): seq<nat> {
    if values == [] then []
    else if values[0] in GREASE then StripGrease(values[1..])
    else [values[0]] + StripGrease(values[1..])
  }

  /** The decimal values joined by dashes. */
  function Join(values: seq<nat>): string {
    if values == [] then ""
    else if |values| == 1 then Decimal(values[0])
    else Decimal(values[0]) + ['-'] + Join(values[1..])
  }

  /** The fields without GREASE; point formats are kept as they are. */
  function Stripped(f: Fields): Fields {
    Fields(f.version, StripGrease(f.ciphers), StripGrease(f.extensions), StripGrease(f.curves), f.formats)
  }

  function Ja3Text(f: Fields): string {
    Decimal(f.version) + [','] + (Join(StripGrease(f.ciphers)) + [','] + (Join(StripGrease(f.extensions)) + [',']
    + (Join(StripGrease(f.curves)) + [','] + Join(f.formats))))
  }

  // ---------------------------------------------------------------- what the text tells apart

  lemma DecimalLacks(n: nat, c: char)
    requires c < '0'
    ensures Lacks(Decimal(n), c)
  {
  }

  lemma {:induction false} JoinLacksComma(values: seq<nat>)
    ensures Lacks(Join(values), ',')
  {
    if values != [] {
      DecimalLacks(values[0], ',');
      if |values| > 1 {
        JoinLacksComma(values[1..]);
        LacksConcat(Decimal(values[0]) + ['-'], Join(values[1..]), ',');
        LacksConcat(Decimal(values[0]), ['-'], ',');
      }
    }
  }

  lemma {:induction false} JoinInjective(a: seq<nat>, b: seq<nat>)
    requires Join(a) == Join(b)
    ensures a == b
  {
    if a != [] && b != [] {
      DecimalLacks(a[0], '-');
      DecimalLacks(b[0], '-');
      if |a| > 1 { HasSeparator(Decimal(a[0]), '-', Join(a[1..])); }
      if |b| > 1 { HasSeparator(Decimal(b[0]), '-', Join(b[1..])); }
      if |a| > 1 && |b| > 1 {
        SplitUnique(Decimal(a[0]), Join(a[1..]), Decimal(b[0]), Join(b[1..]), '-');
        JoinInjective(a[1..], b[1..]);
        assert a == [a[0]] + a[1..] && b == [b[0]] + b[1..];
      }
      DecimalInjective(a[0], b[0]);
    }
  }

  /** Two hellos share the JA3 text exactly when they agree on everything but GREASE. */
  lemma Ja3TextIff(f: Fields, g: Fields)
    ensures Ja3Text(f) == Ja3Text(g) <==> Stripped(f) == Stripped(g)
  {
    if Ja3Text(f) == Ja3Text(g) {
      var s, t := Stripped(f), Stripped(g);
      JoinLacksComma(s.ciphers);
      JoinLacksComma(t.ciphers);
      JoinLacksComma(s.extensions);
      JoinLacksComma(t.extensions);
      JoinLacksComma(s.curves);
      JoinLacksComma(t.curves);
      DecimalLacks(f.version, ',');
      DecimalLacks(g.version, ',');
      var s3, t3 := Join(s.curves) + [','] + Join(s.formats), Join(t.curves) + [','] + Join(t.formats);
      var s2, t2 := Join(s.extensions) + [','] + s3, Join(t.extensions) + [','] + t3;
      var s1, t1 := Join(s.ciphers) + [','] + s2, Join(t.ciphers) + [','] + t2;
      SplitUnique(Decimal(f.version), s1, Decimal(g.version), t1, ',');
      SplitUnique(Join(s.ciphers), s2, Join(t.ciphers), t2, ',');
      SplitUnique(Join(s.extensions), s3, Join(t.extensions), t3, ',');
      SplitUnique(Join(s.curves), Join(s.formats), Join(t.curves), Join(t.formats), ',');
      DecimalInjective(f.version, g.version);
      JoinInjective(s.ciphers, t.ciphers);
      JoinInjective(s.extensions, t.extensions);
      JoinInjective(s.curves, t.curves);
      JoinInjective(s.formats, t.formats);
    }
  }

  // ---------------------------------------------------------------- what the text ignores

  lemma {:induction false} StripInserted(a: seq<nat>, v: nat, b: seq<nat>)
    requires v in GREASE
    ensures StripGrease(a + [v] + b) == StripGrease(a + b)
  {
    if a == [] {
      assert a + [v] + b == [v] + b && a + b == b && ([v] + b)[1..] == b;
    } else {
      assert (a + [v] + b)[1..] == a[1..] + [v] + b && (a + b)[1..] == a[1..] + b;
      StripInserted(a[1..], v, b);
    }
  }

  /** The JA3 text of the record of a message, if the parser takes it for a hello. */
  function TextOf(p: Parsed): Option<string> {
    if p.Hello? then Some(Ja3Text(p.fields)) else None
  }

  /** Gathering commutes with a GREASE extension anywhere: only the list of types sees it. */
  lemma {:induction false} SaidGrease(g: Gathered, a: seq<Extension>, e: Extension, b: seq<Extension>)
    requires e.OtherExt? && e.type_ in GREASE
    ensures var with, without := Said(g, a + [e] + b), Said(g, a + b);
            && with.curves == without.curves && with.formats == without.formats
            && StripGrease(with.extensions) == StripGrease(without.extensions)
    decreases |a|
  {
    if a == [] {
      assert a + [e] + b == [e] + b && a + b == b && ([e] + b)[1..] == b;
      SaidTypes(g, b);
      SaidTypes(Say(g, e), b);
      SaidLater(g, Say(g, e), b);
      var rest := Said(Gathered([], [], []), b).extensions;
      StripInserted(g.extensions, e.type_, rest);
      assert g.extensions + [e.type_] + rest == (g.extensions + [e.type_]) + rest;
    } else {
      assert (a + [e] + b)[0] == a[0] && (a + [e] + b)[1..] == a[1..] + [e] + b;
      assert (a + b)[0] == a[0] && (a + b)[1..] == a[1..] + b;
      SaidGrease(Say(g, a[0]), a[1..], e, b);
    }
  }

  /** The types gathered before only prefix those gathered later. */
  lemma {:induction false} SaidTypes(g: Gathered, es: seq<Extension>)
    ensures Said(g, es).extensions == g.extensions + Said(Gathered([], [], []), es).extensions
    decreases |es|
  {
    if es == [] {
      assert g.extensions + [] == g.extensions;
    } else {
      var none := Gathered([], [], []);
      var rest := Said(none, es[1..]).extensions;
      SaidTypes(Say(g, es[0]), es[1..]);
      SaidTypes(Say(none, es[0]), es[1..]);
      assert g.extensions + ([TypeOf(es[0])] + rest) == (g.extensions + [TypeOf(es[0])]) + rest;
    }
  }

  /** Groups and formats do not depend on the types gathered before. */
  lemma {:induction false} SaidLater(g: Gathered, h: Gathered, es: seq<Extension>)
    requires g.curves == h.curves && g.formats == h.formats
    ensures Said(g, es).curves == Said(h, es).curves && Said(g, es).formats == Said(h, es).formats
    decreases |es|
  {
    if es != [] {
      SaidLater(Say(g, es[0]), Say(h, es[0]), es[1..]);
    }
  }

  /** Two messages that differ by one GREASE value: in the cipher list, in the extension list, or in the group list
      of an extension. */
  ghost predicate GreaseApart(m: Message, n: Message) {
    || (exists a: seq<ClientHello.Word>, v: ClientHello.Word, b: seq<ClientHello.Word> ::
          v in GREASE && m.ciphers == a + [v] + b && n == m.(ciphers := a + b))
    || (m.extensions.Some? && exists a: seq<Extension>, e: Extension, b: seq<Extension> ::
          e.OtherExt? && e.type_ in GREASE && m.extensions.value == a + [e] + b && n == m.(extensions := Some(a + b)))
    || (m.extensions.Some? && exists a: seq<Extension>, x: seq<ClientHello.Word>, v: ClientHello.Word, y: seq<ClientHello.Word>, b: seq<Extension> ::
          v in GREASE && m.extensions.value == a + [Groups(x + [v] + y)] + b
          && n == m.(extensions := Some(a + [Groups(x + y)] + b)))
  }

  /** Replacing the groups of one extension by groups with the same stripped values changes no stripped field. */
  lemma {:induction false} SaidGroups(g: Gathered, h: Gathered, a: seq<Extension>, x: seq<ClientHello.Word>,
                                      y: seq<ClientHello.Word>, b: seq<Extension>)
    requires StripGrease(x) == StripGrease(y)
    requires g.extensions == h.extensions && g.formats == h.formats && StripGrease(g.curves) == StripGrease(h.curves)
    ensures var s, t := Said(g, a + [Groups(x)] + b), Said(h, a + [Groups(y)] + b);
            s.extensions == t.extensions && s.formats == t.formats && StripGrease(s.curves) == StripGrease(t.curves)
    decreases |a|
  {
    var ex, ey := a + [Groups(x)] + b, a + [Groups(y)] + b;
    if a == [] {
      assert ex[1..] == b && ey[1..] == b;
      SaidAlike(Say(g, Groups(x)), Say(h, Groups(y)), b);
    } else {
      assert ex[1..] == a[1..] + [Groups(x)] + b && ey[1..] == a[1..] + [Groups(y)] + b;
      SaidGroups(Say(g, a[0]), Say(h, a[0]), a[1..], x, y, b);
    }
  }

  lemma {:induction false} SaidAlike(g: Gathered, h: Gathered, es: seq<Extension>)
    requires g.extensions == h.extensions && g.formats == h.formats && StripGrease(g.curves) == StripGrease(h.curves)
    ensures var s, t := Said(g, es), Said(h, es);
            s.extensions == t.extensions && s.formats == t.formats && StripGrease(s.curves) == StripGrease(t.curves)
    decreases |es|
  {
    if es != [] {
      SaidAlike(Say(g, es[0]), Say(h, es[0]), es[1..]);
    }
  }

  lemma GreaseStripped(m: Message, n: Message)
    requires GreaseApart(m, n)
    ensures Stripped(FieldsOf(m)) == Stripped(FieldsOf(n))
  {
    var none := Gathered([], [], []);
    if a: seq<ClientHello.Word>, v: ClientHello.Word, b: seq<ClientHello.Word> :|
      v in GREASE && m.ciphers == a + [v] + b && n == m.(ciphers := a + b) {
      StripInserted(a, v, b);
    } else if a: seq<Extension>, e: Extension, b: seq<Extension> :|
      m.extensions.Some? && e.OtherExt? && e.type_ in GREASE && m.extensions.value == a + [e] + b
      && n == m.(extensions := Some(a + b)) {
      SaidGrease(none, a, e, b);
    } else {
      var a: seq<Extension>, x: seq<ClientHello.Word>, v: ClientHello.Word, y: seq<ClientHello.Word>, b: seq<Extension> :|
        v in GREASE && m.extensions.value == a + [Groups(x + [v] + y)] + b
        && n == m.(extensions := Some(a + [Groups(x + y)] + b));
      StripInserted(x, v, y);
      SaidGroups(none, none, a, x + [v] + y, x + y, b);
    }
  }

  /** Inserting or removing a GREASE value anywhere in a well-formed hello never changes the text its record gives. */
  lemma GreaseNeverShows(m: Message, n: Message, trailing: Bytes, trailing': Bytes)
    requires WellFormed(m) && WellFormed(n) && GreaseApart(m, n)
    ensures TextOf(Parse(Encode(m) + trailing)) == TextOf(Parse(Encode(n) + trailing')) != None
  {
    ParseInvertsEncode(m, trailing);
    ParseInvertsEncode(n, trailing');
    GreaseStripped(m, n);
    Ja3TextIff(FieldsOf(m), FieldsOf(n));
  }
}
