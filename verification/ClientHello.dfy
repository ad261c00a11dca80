/** The JA3 parser of tls-fingerprint-detector.js: what it reads from a TLS record, and the wire format of RFC 8446
    section 4.1.2 (with the extensions of RFC 8422 sections 5.1.1 and 5.1.2) that it must invert. */
module ClientHello {
  import opened Options

  type Byte = n: nat | n < 0x100
  type Word = n: nat | n < 0x1_0000
  type Bytes = seq<Byte>

  /** The five ingredients of the JA3 text. */
  datatype Fields = Fields(version: nat, ciphers: seq<nat>, extensions: seq<nat>, curves: seq<nat>, formats: seq<nat>)

  /** Not a ClientHello; an exception while reading one; or its fields. */
  datatype Parsed = NotHello | Malformed | Hello(fields: Fields)

  // ---------------------------------------------------------------- the parser's meaning

  /** A slice in the source's sense: clipped to the data. */
  function Slice(b: Bytes, lo: nat, hi: nat): Bytes
    requires lo <= hi
  {
    if lo >= |b| then [] else if hi >= |b| then b[lo..] else b[lo..hi]
  }

  /** Two bytes, big-endian. */
  function Big(hi: nat, lo: nat): nat {
    hi * 0x100 + lo
  }

  /** Two bytes of the data; None is the unpacking error. */
  function U16At(b: Bytes, pos: nat): Option<nat> {
    if pos + 2 <= |b| then Some(Big(b[pos], b[pos + 1])) else None
  }

  /** The list read by steps of two over `len` declared bytes from `pos`. */
  function U16List(b: Bytes, pos: nat, len: nat): Option<seq<nat>>
    decreases len
  {
    if len == 0 then Some([])
    else
      var first := U16At(b, pos);
      if first.None? then None else Prepend([first.value], U16List(b, pos + 2, if len < 2 then 0 else len - 2))
  }

  /** What the extension loop has gathered. */
  datatype Gathered = Gathered(extensions: seq<nat>, curves: seq<nat>, formats: seq<nat>)

  /** One extension with its data. */
  function Gather(g: Gathered, type_: nat, data: Bytes): Option<Gathered> {
    var seen := g.(extensions := g.extensions + [type_]);
    if type_ == 0x000a && |data| >= 2 then
      var groups := U16List(data, 2, Big(data[0], data[1]));
      if groups.None? then None else Some(seen.(curves := groups.value))
    else if type_ == 0x000b && |data| >= 1 then
      Some(seen.(formats := Slice(data, 1, 1 + Big(0, data[0]))))
    else Some(seen)
  }

  /** The extension at `pos`: what is gathered after it, and where the next one starts. */
  function NextExtension(b: Bytes, pos: nat, g: Gathered): (r: Option<(Gathered, nat)>)
    ensures r.Some? ==> r.value.1 >= pos + 4
  {
    var type_, len := U16At(b, pos), U16At(b, pos + 2);
    if type_.None? || len.None? then None
    else
      var next := Gather(g, type_.value, Slice(b, pos + 4, pos + 4 + len.value));
      if next.None? then None else Some((next.value, pos + 4 + len.value))
  }

  function Extensions(b: Bytes, pos: nat, end: nat, g: Gathered): Option<Gathered>
    decreases if end >= pos then end - pos else 0
  {
    if pos + 4 > end then Some(g)
    else
      var next := NextExtension(b, pos, g);
      if next.None? then None else Extensions(b, next.value.1, end, next.value.0)
  }

  function Tail(b: Bytes, pos: nat): Option<Gathered> {
    if pos >= |b| then Some(Gathered([], [], []))
    else
      var total := U16At(b, pos);
      if total.None? then None else Extensions(b, pos + 2, pos + 2 + total.value, Gathered([], [], []))
  }

  /** From the compression methods on. */
  function AfterCiphers(b: Bytes, version: nat, ciphers: seq<nat>, pos: nat): Parsed {
    if pos >= |b| then Malformed
    else
      var g := Tail(b, pos + 1 + Big(0, b[pos]));
      if g.None? then Malformed
      else Hello(Fields(version, ciphers, g.value.extensions, g.value.curves, g.value.formats))
  }

  /** From the cipher list on. */
  function AfterSession(b: Bytes, version: nat, pos: nat): Parsed {
    var len := U16At(b, pos);
    if len.None? then Malformed
    else
      var ciphers := U16List(b, pos + 2, len.value);
      if ciphers.None? then Malformed else AfterCiphers(b, version, ciphers.value, pos + 2 + len.value)
  }

  function ParseBody(b: Bytes): Parsed
    requires |b| >= 34
  {
    if |b| == 34 then Malformed else AfterSession(b, Big(b[0], b[1]), 35 + Big(0, b[34]))
  }

  function Parse(data: Bytes): Parsed {
    if |data| < 5 || data[0] != 0x16 then NotHello
    else
      var hs := Slice(data, 5, 5 + Big(data[3], data[4]));
      if |hs| < 4 || hs[0] != 0x01 then NotHello
      else
        var body := Slice(hs, 4, 4 + Big(Big(hs[1], hs[2]), hs[3]));
        if |body| < 34 then NotHello else ParseBody(body)
  }

  // ---------------------------------------------------------------- the parser itself

  function Prepend(values: seq<nat>, rest: Option<seq<nat>>): Option<seq<nat>> {
    if rest.None? then None else Some(values + rest.value)
  }

  lemma PrependTwice(a: seq<nat>, b: seq<nat>, rest: Option<seq<nat>>)
    ensures Prepend(a, Prepend(b, rest)) == Prepend(a + b, rest)
    ensures Prepend([], rest) == rest
  {
    if rest.Some? {
      assert a + (b + rest.value) == (a + b) + rest.value;
      assert [] + rest.value == rest.value;
    }
  }

  method ReadU16List(b: Bytes, pos: nat, len: nat) returns (r: Option<seq<nat>>)
    ensures r == U16List(b, pos, len)
  {
    var values: seq<nat> := [];
    var i := 0;
    PrependTwice([], [], U16List(b, pos, len));
    while i < len
      invariant i <= len + 1
      invariant U16List(b, pos, len) == Prepend(values, U16List(b, pos + i, if i < len then len - i else 0))
      decreases len - i
    {
      PrependTwice(values, [if pos + i + 2 > |b| then 0 else Big(b[pos + i], b[pos + i + 1])],
                   U16List(b, pos + i + 2, if len - i < 2 then 0 else len - i - 2));
      if pos + i + 2 > |b| { return None; }
      values := values + [Big(b[pos + i], b[pos + i + 1])];
      i := i + 2;
    }
    assert values + [] == values;
    return Some(values);
  }

  /** The body of the extension loop. */
  method ReadExtension(b: Bytes, pos: nat, g: Gathered) returns (r: Option<(Gathered, nat)>)
    ensures r == NextExtension(b, pos, g)
  {
    if pos + 4 > |b| { return None; }
    var type_, len := Big(b[pos], b[pos + 1]), Big(b[pos + 2], b[pos + 3]);
    var data := Slice(b, pos + 4, pos + 4 + len);
    var extensions, curves, formats := g.extensions + [type_], g.curves, g.formats;
    if type_ == 0x000a && |data| >= 2 {
      var groups := ReadU16List(data, 2, Big(data[0], data[1]));
      if groups.None? { return None; }
      curves := groups.value;
    }
    if type_ == 0x000b && |data| >= 1 {
      formats := Slice(data, 1, 1 + Big(0, data[0]));
    }
    return Some((Gathered(extensions, curves, formats), pos + 4 + len));
  }

  method ReadExtensions(b: Bytes, start: nat, end: nat) returns (r: Option<Gathered>)
    ensures r == Extensions(b, start, end, Gathered([], [], []))
  {
    var g := Gathered([], [], []);
    var pos := start;
    while pos + 4 <= end
      invariant Extensions(b, start, end, Gathered([], [], [])) == Extensions(b, pos, end, g)
      decreases if end >= pos then end - pos else 0
    {
      var next := ReadExtension(b, pos, g);
      if next.None? { return None; }
      g, pos := next.value.0, next.value.1;
    }
    return Some(g);
  }

  method ReadTail(b: Bytes, start: nat) returns (r: Option<Gathered>)
    ensures r == Tail(b, start)
  {
    var pos := start;
    if pos >= |b| { return Some(Gathered([], [], [])); }
    if pos + 2 > |b| { return None; }
    var total := Big(b[pos], b[pos + 1]);
    pos := pos + 2;
    r := ReadExtensions(b, pos, pos + total);
  }

  /** From the cipher list on. */
  method ReadAfterSession(body: Bytes, version: nat, start: nat) returns (r: Parsed)
    ensures r == AfterSession(body, version, start)
  {
    var pos := start;
    if pos + 2 > |body| { return Malformed; }
    var csLen := Big(body[pos], body[pos + 1]);
    pos := pos + 2;
    var ciphers := ReadU16List(body, pos, csLen);
    if ciphers.None? { return Malformed; }
    pos := pos + csLen;
    if pos >= |body| { return Malformed; }
    pos := pos + 1 + Big(0, body[pos]);
    var g := ReadTail(body, pos);
    if g.None? { return Malformed; }
    return Hello(Fields(version, ciphers.value, g.value.extensions, g.value.curves, g.value.formats));
  }

  method ParseClientHello(data: Bytes) returns (r: Parsed)
    ensures r == Parse(data)
  {
    if |data| < 5 || data[0] != 0x16 { return NotHello; }
    var hs := Slice(data, 5, 5 + Big(data[3], data[4]));
    if |hs| < 4 || hs[0] != 0x01 { return NotHello; }
    var body := Slice(hs, 4, 4 + Big(Big(hs[1], hs[2]), hs[3]));
    if |body| < 34 { return NotHello; }
    var version := Big(body[0], body[1]);
    if 34 >= |body| { return Malformed; }
    r := ReadAfterSession(body, version, 34 + 1 + Big(0, body[34]));
  }

  // ---------------------------------------------------------------- the wire format

  /** An extension: supported_groups, ec_point_formats, or any other with its raw data. */
  datatype Extension = Groups(groups: seq<Word>) | Formats(formats: seq<Byte>) | OtherExt(type_: Word, data: Bytes)

  datatype Message = Message(
    recordVersion: Word,
    version: Word,
    random: Bytes,
    sessionId: Bytes,
    ciphers: seq<Word>,
    compression: Bytes,
    extensions: Option<seq<Extension>>)

  function U16(w: Word): Bytes {
    [w / 0x100, w % 0x100]
  }

  function Words(ws: seq<Word>): (b: Bytes)
    ensures |b| == 2 * |ws|
  {
    if ws == [] then [] else U16(ws[0]) + Words(ws[1..])
  }

  function TypeOf(e: Extension): Word {
    match e
    case Groups(_) => 0x000a
    case Formats(_) => 0x000b
    case OtherExt(t, _) => t
  }

  predicate ExtensionFits(e: Extension) {
    match e
    case Groups(gs) => 2 + 2 * |gs| < 0x1_0000
    case Formats(fs) => |fs| < 0x100
    case OtherExt(t, d) => t != 0x000a && t != 0x000b && |d| < 0x1_0000
  }

  function ExtensionData(e: Extension): (d: Bytes)
    requires ExtensionFits(e)
    ensures |d| < 0x1_0000
  {
    match e
    case Groups(gs) => U16(2 * |gs|) + Words(gs)
    case Formats(fs) => [|fs|] + fs
    case OtherExt(_, d) => d
  }

  function EncodeExtension(e: Extension): (b: Bytes)
    requires ExtensionFits(e)
    ensures |b| == 4 + |ExtensionData(e)|
  {
    U16(TypeOf(e)) + U16(|ExtensionData(e)|) + ExtensionData(e)
  }

  predicate AllFit(es: seq<Extension>) {
    forall e :: e in es ==> ExtensionFits(e)
  }

  function EncodeExtensions(es: seq<Extension>): Bytes
    requires AllFit(es)
  {
    if es == [] then [] else EncodeExtension(es[0]) + EncodeExtensions(es[1..])
  }

  /** The lengths a ClientHello in a single record can declare. */
  predicate WellFormed(m: Message) {
    && |m.random| == 32 && |m.sessionId| <= 32 && 2 * |m.ciphers| < 0x1_0000 && |m.compression| < 0x100
    && (m.extensions.Some? ==> AllFit(m.extensions.value) && |EncodeExtensions(m.extensions.value)| < 0x1_0000)
    && 4 + BodyLength(m) < 0x1_0000
  }

  function ExtensionBlock(m: Message): Bytes
    requires m.extensions.Some? ==> AllFit(m.extensions.value) && |EncodeExtensions(m.extensions.value)| < 0x1_0000
  {
    if m.extensions.None? then []
    else U16(|EncodeExtensions(m.extensions.value)|) + EncodeExtensions(m.extensions.value)
  }

  function BodyLength(m: Message): nat
    requires m.extensions.Some? ==> AllFit(m.extensions.value) && |EncodeExtensions(m.extensions.value)| < 0x1_0000
  {
    2 + |m.random| + 1 + |m.sessionId| + 2 + 2 * |m.ciphers| + 1 + |m.compression| + |ExtensionBlock(m)|
  }

  function Prefix(m: Message): (b: Bytes)
    requires WellFormed(m)
    ensures |b| == 35 + |m.sessionId|
  {
    U16(m.version) + m.random + [|m.sessionId|] + m.sessionId
  }

  function EncodeBody(m: Message): (b: Bytes)
    requires WellFormed(m)
    ensures |b| == BodyLength(m)
  {
    Prefix(m) + (U16(2 * |m.ciphers|) + Words(m.ciphers) + ([|m.compression|] + m.compression + ExtensionBlock(m)))
  }

  /** The TLS record of a ClientHello. */
  function Encode(m: Message): Bytes
    requires WellFormed(m)
  {
    var body := EncodeBody(m);
    [0x16] + U16(m.recordVersion) + U16(4 + |body|) + ([0x01, 0x00] + U16(|body|) + body)
  }

  // ---------------------------------------------------------------- parsing inverts encoding

  /** The bytes `s` stand in `b` at `pos`. */
  predicate At(b: Bytes, pos: nat, s: Bytes) {
    pos + |s| <= |b| && forall i :: 0 <= i < |s| ==> s[i] == b[pos + i]
  }

  lemma AtConcat(b: Bytes, pos: nat, s: Bytes, t: Bytes)
    requires At(b, pos, s + t)
    ensures At(b, pos, s) && At(b, pos + |s|, t)
  {
    var st := s + t;
    forall i | 0 <= i < |s| ensures s[i] == b[pos + i] {
      assert st[i] == s[i];
    }
    forall i | 0 <= i < |t| ensures t[i] == b[pos + |s| + i] {
      assert st[|s| + i] == t[i];
    }
  }

  lemma AtThree(b: Bytes, pos: nat, s: Bytes, t: Bytes, u: Bytes)
    requires At(b, pos, s + t + u)
    ensures At(b, pos, s) && At(b, pos + |s|, t) && At(b, pos + |s| + |t|, u)
  {
    AtConcat(b, pos, s + t, u);
    AtConcat(b, pos, s, t);
  }

  lemma AtSlice(b: Bytes, pos: nat, s: Bytes)
    requires At(b, pos, s)
    ensures Slice(b, pos, pos + |s|) == s
  {
  }

  lemma U16Read(b: Bytes, pos: nat, w: Word)
    requires At(b, pos, U16(w))
    ensures U16At(b, pos) == Some(w)
  {
    assert U16(w)[0] == b[pos] && U16(w)[1] == b[pos + 1];
  }

  lemma {:induction false} WordsRead(b: Bytes, pos: nat, ws: seq<Word>)
    requires At(b, pos, Words(ws))
    ensures U16List(b, pos, 2 * |ws|) == Some(ws)
    decreases |ws|
  {
    if ws != [] {
      AtConcat(b, pos, U16(ws[0]), Words(ws[1..]));
      U16Read(b, pos, ws[0]);
      WordsRead(b, pos + 2, ws[1..]);
      assert ws == [ws[0]] + ws[1..];
    }
  }

  /** What a list of extensions says: the types in order, the last groups and the last formats. */
  function Say(g: Gathered, e: Extension): Gathered {
    var seen := g.(extensions := g.extensions + [TypeOf(e)]);
    match e
    case Groups(gs) => seen.(curves := gs)
    case Formats(fs) => seen.(formats := fs)
    case OtherExt(_, _) => seen
  }

  function Said(g: Gathered, es: seq<Extension>): Gathered
    decreases |es|
  {
    if es == [] then g else Said(Say(g, es[0]), es[1..])
  }

  lemma GatherEncoded(g: Gathered, e: Extension)
    requires ExtensionFits(e)
    ensures Gather(g, TypeOf(e), ExtensionData(e)) == Some(Say(g, e))
  {
    var data := ExtensionData(e);
    match e
    case Groups(gs) =>
      AtConcat(data, 0, U16(2 * |gs|), Words(gs));
      U16Read(data, 0, 2 * |gs|);
      WordsRead(data, 2, gs);
    case Formats(fs) =>
      AtConcat(data, 0, [|fs|], fs);
      AtSlice(data, 1, fs);
      assert data[0] == |fs|;
    case OtherExt(_, _) =>
  }

  /** An extension in place: its type, its length and its data. */
  lemma ExtensionParts(b: Bytes, pos: nat, e: Extension)
    requires ExtensionFits(e) && At(b, pos, EncodeExtension(e))
    ensures U16At(b, pos) == Some(TypeOf(e)) && U16At(b, pos + 2) == Some(|ExtensionData(e)|)
    ensures Slice(b, pos + 4, pos + 4 + |ExtensionData(e)|) == ExtensionData(e)
  {
    var data := ExtensionData(e);
    AtThree(b, pos, U16(TypeOf(e)), U16(|data|), data);
    U16Read(b, pos, TypeOf(e));
    U16Read(b, pos + 2, |data|);
    AtSlice(b, pos + 4, data);
  }

  lemma ExtensionRead(b: Bytes, pos: nat, e: Extension, g: Gathered)
    requires ExtensionFits(e) && At(b, pos, EncodeExtension(e))
    ensures NextExtension(b, pos, g) == Some((Say(g, e), pos + |EncodeExtension(e)|))
  {
    ExtensionParts(b, pos, e);
    GatherEncoded(g, e);
  }

  lemma OneThenRest(b: Bytes, pos: nat, e: Extension, rest: Bytes, g: Gathered) returns (next: nat)
    requires ExtensionFits(e) && At(b, pos, EncodeExtension(e) + rest)
    ensures At(b, next, rest) && next == pos + |EncodeExtension(e)| >= pos + 4
    ensures NextExtension(b, pos, g) == Some((Say(g, e), next))
  {
    AtConcat(b, pos, EncodeExtension(e), rest);
    ExtensionRead(b, pos, e, g);
    next := pos + |EncodeExtension(e)|;
  }

  lemma ExtensionsStep(b: Bytes, pos: nat, end: nat, g: Gathered, next: nat, then_: Gathered)
    requires pos + 4 <= end && NextExtension(b, pos, g) == Some((then_, next))
    ensures Extensions(b, pos, end, g) == Extensions(b, next, end, then_)
  {
  }

  lemma {:induction false} ExtensionsRead(b: Bytes, pos: nat, es: seq<Extension>, g: Gathered)
    requires AllFit(es) && At(b, pos, EncodeExtensions(es))
    ensures Extensions(b, pos, pos + |EncodeExtensions(es)|, g) == Some(Said(g, es))
    decreases |es|
  {
    if es == [] {
      assert |EncodeExtensions(es)| == 0;
    } else {
      var next := OneThenRest(b, pos, es[0], EncodeExtensions(es[1..]), g);
      ExtensionsStep(b, pos, pos + |EncodeExtensions(es)|, g, next, Say(g, es[0]));
      ExtensionsRead(b, next, es[1..], Say(g, es[0]));
    }
  }

  function ExtensionsOf(m: Message): seq<Extension> {
    if m.extensions.Some? then m.extensions.value else []
  }

  /** The fields a message carries. */
  function FieldsOf(m: Message): Fields {
    var said := Said(Gathered([], [], []), ExtensionsOf(m));
    Fields(m.version, m.ciphers, said.extensions, said.curves, said.formats)
  }

  lemma TailRead(b: Bytes, pos: nat, m: Message)
    requires WellFormed(m) && At(b, pos, ExtensionBlock(m)) && pos + |ExtensionBlock(m)| == |b|
    ensures Tail(b, pos) == Some(Said(Gathered([], [], []), ExtensionsOf(m)))
  {
    if m.extensions.Some? {
      var block := EncodeExtensions(m.extensions.value);
      AtConcat(b, pos, U16(|block|), block);
      U16Read(b, pos, |block|);
      ExtensionsRead(b, pos + 2, m.extensions.value, Gathered([], [], []));
    }
  }

  lemma CiphersRead(b: Bytes, pos: nat, ws: seq<Word>, rest: Bytes)
    requires 2 * |ws| < 0x1_0000 && At(b, pos, U16(2 * |ws|) + Words(ws) + rest)
    ensures U16At(b, pos) == Some(2 * |ws|) && U16List(b, pos + 2, 2 * |ws|) == Some(ws)
    ensures At(b, pos + 2 + 2 * |ws|, rest)
  {
    AtThree(b, pos, U16(2 * |ws|), Words(ws), rest);
    U16Read(b, pos, 2 * |ws|);
    WordsRead(b, pos + 2, ws);
  }

  lemma CountedRead(b: Bytes, pos: nat, s: Bytes, rest: Bytes)
    requires |s| < 0x100 && At(b, pos, [|s|] + s + rest)
    ensures pos < |b| && b[pos] == |s| && At(b, pos + 1 + |s|, rest)
  {
    AtThree(b, pos, [|s|], s, rest);
    assert [|s|][0] == b[pos];
  }

  lemma AfterCiphersRead(b: Bytes, pos: nat, m: Message, version: nat)
    requires WellFormed(m) && At(b, pos, [|m.compression|] + m.compression + ExtensionBlock(m))
    requires pos + 1 + |m.compression| + |ExtensionBlock(m)| == |b|
    ensures AfterCiphers(b, version, m.ciphers, pos) == Hello(FieldsOf(m).(version := version))
  {
    CountedRead(b, pos, m.compression, ExtensionBlock(m));
    TailRead(b, pos + 1 + |m.compression|, m);
  }

  lemma AfterSessionRead(b: Bytes, pos: nat, m: Message, version: nat)
    requires WellFormed(m)
    requires var rest := U16(2 * |m.ciphers|) + Words(m.ciphers) + ([|m.compression|] + m.compression + ExtensionBlock(m));
             At(b, pos, rest) && pos + |rest| == |b|
    ensures AfterSession(b, version, pos) == Hello(FieldsOf(m).(version := version))
  {
    CiphersRead(b, pos, m.ciphers, [|m.compression|] + m.compression + ExtensionBlock(m));
    AfterCiphersRead(b, pos + 2 + 2 * |m.ciphers|, m, version);
  }

  lemma PrefixRead(m: Message)
    requires WellFormed(m)
    ensures var p := Prefix(m); Big(p[0], p[1]) == m.version && p[34] == |m.sessionId|
  {
    var v, p := U16(m.version), Prefix(m);
    assert p[0] == v[0] && p[1] == v[1];
    U16Read(v, 0, m.version);
    assert p == (v + m.random) + ([|m.sessionId|] + m.sessionId);
    assert p[34] == ([|m.sessionId|] + m.sessionId)[0];
  }

  lemma BodyRead(m: Message)
    requires WellFormed(m)
    ensures ParseBody(EncodeBody(m)) == Hello(FieldsOf(m))
  {
    var b := EncodeBody(m);
    var rest := U16(2 * |m.ciphers|) + Words(m.ciphers) + ([|m.compression|] + m.compression + ExtensionBlock(m));
    AtConcat(b, 0, Prefix(m), rest);
    var p := Prefix(m);
    assert b[0] == p[0] && b[1] == p[1] && b[34] == p[34];
    PrefixRead(m);
    AfterSessionRead(b, |p|, m, m.version);
  }

  lemma RecordRead(data: Bytes, recordVersion: Word, hs: Bytes)
    requires |hs| < 0x1_0000 && At(data, 0, [0x16] + U16(recordVersion) + U16(|hs|) + hs)
    ensures |data| >= 5 && data[0] == 0x16 && Slice(data, 5, 5 + Big(data[3], data[4])) == hs
  {
    AtConcat(data, 0, [0x16] + U16(recordVersion) + U16(|hs|), hs);
    AtThree(data, 0, [0x16], U16(recordVersion), U16(|hs|));
    assert [0x16][0] == data[0];
    U16Read(data, 3, |hs|);
    AtSlice(data, 5, hs);
  }

  lemma HandshakeRead(hs: Bytes, body: Bytes)
    requires |body| < 0x1_0000 && hs == [0x01, 0x00] + U16(|body|) + body
    ensures |hs| >= 4 && hs[0] == 0x01 && Slice(hs, 4, 4 + Big(Big(hs[1], hs[2]), hs[3])) == body
  {
    assert At(hs, 0, [0x01, 0x00] + U16(|body|) + body);
    AtThree(hs, 0, [0x01, 0x00], U16(|body|), body);
    U16Read(hs, 2, |body|);
    AtSlice(hs, 4, body);
  }

  /** Parsing a well-formed ClientHello recovers its version, ciphers, extension types, groups and point formats,
      whatever follows the record. */
  lemma ParseInvertsEncode(m: Message, trailing: Bytes)
    requires WellFormed(m)
    ensures Parse(Encode(m) + trailing) == Hello(FieldsOf(m))
  {
    var body := EncodeBody(m);
    var hs := [0x01, 0x00] + U16(|body|) + body;
    assert At(Encode(m) + trailing, 0, Encode(m));
    RecordRead(Encode(m) + trailing, m.recordVersion, hs);
    HandshakeRead(hs, body);
    BodyRead(m);
  }
}
