/** What a restart reads after a token rotation: the old environment with the token replaced, and nothing else. */
module EnvRoundTrip {
  import opened Options
  import opened Text
  import opened EnvFile

  // ---------------------------------------------------------------- joining and splitting again

  function Chopped(lines: seq<string>): (r: seq<string>)
    ensures |r| == |lines|
  {
    if lines == [] then [] else [Chop(lines[0])] + Chopped(lines[1..])
  }

  predicate OneLine(lines: seq<string>) {
    lines == [] || (Lacks(lines[0], '\n') && OneLine(lines[1..]))
  }

  /** Written lines come back, each without a carriage return it ended in, and an empty piece follows the last. */
  lemma {:induction false} SplitJoined(lines: seq<string>)
    requires OneLine(lines)
    ensures SplitLines(JoinLines(lines)) == Chopped(lines) + [""]
  {
    if lines != [] {
      var s := JoinLines(lines);
      BeforeSeparator(lines[0], '\n', JoinLines(lines[1..]));
      assert s[..|lines[0]|] == lines[0] && s[|lines[0]| + 1..] == JoinLines(lines[1..]);
      SplitJoined(lines[1..]);
    }
  }

  lemma {:induction false} SplitOneLine(s: string)
    ensures OneLine(SplitLines(s))
    decreases |s|
  {
    var n := Before(s, '\n');
    if n < |s| {
      SplitOneLine(s[n + 1..]);
      assert SplitLines(s)[1..] == SplitLines(s[n + 1..]);
    } else {
      assert SplitLines(s)[1..] == [];
    }
  }

  lemma {:induction false} OneLinePrefix(a: seq<string>, b: seq<string>)
    ensures OneLine(a + b) <==> OneLine(a) && OneLine(b)
  {
    if a == [] {
      assert a + b == b;
    } else {
      assert (a + b)[1..] == a[1..] + b;
      OneLinePrefix(a[1..], b);
    }
  }

  /** Only blank lines at the end are dropped. */
  lemma {:induction false} DropBlankMeans(lines: seq<string>)
    ensures DropBlank(lines) <= lines
    ensures forall i :: |DropBlank(lines)| <= i < |lines| ==> lines[i] == ""
    ensures DropBlank(lines) != [] ==> DropBlank(lines)[|DropBlank(lines)| - 1] != ""
  {
    if lines != [] && lines[|lines| - 1] == "" {
      DropBlankMeans(lines[..|lines| - 1]);
    }
  }

  lemma LinesOneLine(content: string)
    ensures OneLine(LinesOf(content))
  {
    var all := if content == "" then [] else SplitLines(content);
    SplitOneLine(content);
    DropBlankMeans(all);
    var kept := DropBlank(all);
    assert kept + all[|kept|..] == all;
    OneLinePrefix(kept, all[|kept|..]);
  }

  lemma AssignmentOneLine(key: string, value: string)
    requires Lacks(key, '\n') && Lacks(value, '\n')
    ensures OneLine([Assignment(key, value)])
  {
    LacksConcat(key, ['='], '\n');
    LacksConcat(key + ['='], value, '\n');
    assert [Assignment(key, value)][1..] == [];
  }

  lemma {:induction false} ReplacedOneLine(lines: seq<string>, key: string, value: string)
    requires OneLine(lines) && Lacks(key, '\n') && Lacks(value, '\n')
    ensures OneLine(Replaced(lines, key, value))
  {
    if lines != [] {
      AssignmentOneLine(key, value);
      ReplacedOneLine(lines[1..], key, value);
      assert Replaced(lines, key, value)[1..] == Replaced(lines[1..], key, value);
    }
  }

  // ---------------------------------------------------------------- loading

  lemma {:induction false} LoadConcat(env: Env, a: seq<string>, b: seq<string>)
    ensures Load(env, a + b) == Load(Load(env, a), b)
    decreases |a|
  {
    if a == [] {
      assert a + b == b;
    } else {
      assert (a + b)[0] == a[0] && (a + b)[1..] == a[1..] + b;
      LoadConcat(LoadLine(env, a[0]), a[1..], b);
    }
  }

  lemma {:induction false} LoadBlanks(env: Env, blanks: seq<string>)
    requires forall i :: 0 <= i < |blanks| ==> blanks[i] == ""
    ensures Load(env, blanks) == env
    decreases |blanks|
  {
    if blanks != [] {
      assert LoadLine(env, "") == env;
      LoadBlanks(env, blanks[1..]);
    }
  }

  lemma {:induction false} LoadChopped(env: Env, lines: seq<string>)
    ensures Load(env, Chopped(lines)) == Load(env, lines)
    decreases |lines|
  {
    if lines != [] {
      EntryOfChop(lines[0]);
      assert LoadLine(env, Chop(lines[0])) == LoadLine(env, lines[0]);
      LoadChopped(LoadLine(env, lines[0]), lines[1..]);
    }
  }

  /** Blank lines at the end of a file are not read. */
  lemma LoadLinesOf(env: Env, content: string)
    ensures LoadFile(env, Some(content)) == Load(env, LinesOf(content))
  {
    var all := SplitLines(content);
    if content == "" {
      assert all == [""];
      LoadBlanks(env, all);
    } else {
      var kept := DropBlank(all);
      DropBlankMeans(all);
      assert all == kept + all[|kept|..];
      LoadConcat(env, kept, all[|kept|..]);
      LoadBlanks(Load(env, kept), all[|kept|..]);
    }
  }

  /** A file written line by line loads like its lines. */
  lemma LoadJoined(env: Env, lines: seq<string>)
    requires OneLine(lines)
    ensures LoadFile(env, Some(JoinLines(lines))) == Load(env, lines)
  {
    SplitJoined(lines);
    LoadConcat(env, Chopped(lines), [""]);
    LoadBlanks(Load(env, Chopped(lines)), [""]);
    LoadChopped(env, lines);
  }

  /** A value that came with the environment hides every line for its key, rewritten or not. */
  lemma {:induction false} LoadHidden(env: Env, lines: seq<string>, key: string, value: string)
    requires PlainKey(key) && Given(env, key)
    ensures Load(env, Replaced(lines, key, value)) == Load(env, lines)
    ensures Given(Load(env, lines), key) && Load(env, lines)[key] == env[key]
    decreases |lines|
  {
    if lines != [] {
      EntryOfAssignment(key, value);
      LoadHidden(LoadLine(env, lines[0]), lines[1..], key, value);
    }
  }

  lemma LineSeen(env: Env, line: string, key: string, v: string)
    requires !Assigns(line, key)
    ensures LoadLine(env[key := v], line) == LoadLine(env, line)[key := v]
    ensures Given(LoadLine(env, line), key) == Given(env, key)
  {
    if EntryOf(line).Some? {
      var e := EntryOf(line).value;
      assert env[key := v][e.key := e.value] == env[e.key := e.value][key := v];
    }
  }

  lemma LineOverridden(env: Env, line: string, key: string, v: string)
    requires Assigns(line, key)
    ensures LoadLine(env, line)[key := v] == env[key := v]
  {
  }

  lemma WrittenLine(env: Env, key: string, value: string)
    requires PlainKey(key)
    ensures !Given(env, key) ==> LoadLine(env, Assignment(key, value)) == env[key := ReadBack(value)]
    ensures env[key := ReadBack(value)] == LoadLine(env[key := ReadBack(value)], Assignment(key, value))
  {
    EntryOfAssignment(key, value);
  }

  /** Once a rewritten line has been read, the two environments differ in that key alone. */
  lemma {:induction false} LoadSeen(env: Env, lines: seq<string>, key: string, value: string)
    requires PlainKey(key)
    ensures Load(env[key := ReadBack(value)], Replaced(lines, key, value)) == Load(env, lines)[key := ReadBack(value)]
    decreases |lines|
  {
    if lines != [] {
      var v := ReadBack(value);
      if Assigns(lines[0], key) {
        WrittenLine(env, key, value);
        LineOverridden(env, lines[0], key, v);
      } else {
        LineSeen(env, lines[0], key, v);
      }
      LoadSeen(LoadLine(env, lines[0]), lines[1..], key, value);
    }
  }

  lemma LoadFirst(env: Env, lines: seq<string>, first: string, rest: seq<string>)
    requires lines == [first] + rest
    ensures Load(env, lines) == Load(LoadLine(env, first), rest)
  {
    assert lines[0] == first && lines[1..] == rest;
  }

  lemma UpsertedFirst(lines: seq<string>, key: string, value: string)
    ensures lines == [] ==> Upserted(lines, key, value) == [Assignment(key, value)] + []
    ensures lines != [] && Assigns(lines[0], key) ==>
              Upserted(lines, key, value) == [Assignment(key, value)] + Replaced(lines[1..], key, value)
    ensures lines != [] && !Assigns(lines[0], key) ==>
              Upserted(lines, key, value) == [lines[0]] + Upserted(lines[1..], key, value)
  {
  }

  lemma {:induction false} LoadUnseen(env: Env, lines: seq<string>, key: string, value: string)
    requires PlainKey(key) && !Given(env, key)
    ensures Load(env, Upserted(lines, key, value)) == Load(env, lines)[key := ReadBack(value)]
    decreases |lines|
  {
    var v := ReadBack(value);
    var up := Upserted(lines, key, value);
    UpsertedFirst(lines, key, value);
    if lines == [] {
      WrittenLine(env, key, value);
      LoadFirst(env, up, Assignment(key, value), []);
    } else if Assigns(lines[0], key) {
      LoadFirst(env, up, Assignment(key, value), Replaced(lines[1..], key, value));
      WrittenLine(env, key, value);
      LineOverridden(env, lines[0], key, v);
      LoadSeen(LoadLine(env, lines[0]), lines[1..], key, value);
    } else {
      LoadFirst(env, up, lines[0], Upserted(lines[1..], key, value));
      LineSeen(env, lines[0], key, v);
      LoadUnseen(LoadLine(env, lines[0]), lines[1..], key, value);
    }
  }

  // ---------------------------------------------------------------- the round trip

  /** Loading after a write gives the old environment with that key replaced, whatever duplicates, comments, CRLF
      pairs and stray carriage returns the file has; a value given before the start hides both the old and the new. */
  lemma RoundTrip(env: Env, content: string, key: string, value: string)
    requires PlainKey(key) && Lacks(value, '\n')
    ensures var before := LoadFile(env, Some(content));
            LoadFile(env, Some(Persisted(content, key, value)))
            == if Given(env, key) then before else before[key := ReadBack(value)]
  {
    var lines := LinesOf(content);
    LinesOneLine(content);
    ReplacedOneLine(lines, key, value);
    AssignmentOneLine(key, value);
    var extra := if HasKey(lines, key) then [] else [Assignment(key, value)];
    OneLinePrefix(Replaced(lines, key, value), extra);
    LoadJoined(env, Upserted(lines, key, value));
    LoadLinesOf(env, content);
    if Given(env, key) {
      LoadHidden(env, lines, key, value);
      LoadConcat(env, Replaced(lines, key, value), extra);
      LoadHidden(Load(env, lines), [Assignment(key, value)], key, value);
      EntryOfAssignment(key, value);
      assert Load(Load(env, lines), extra) == Load(env, lines);
    } else {
      LoadUnseen(env, lines, key, value);
    }
  }

  // ---------------------------------------------------------------- which tokens survive a restart

  /** No white space and no quote at either end. */
  predicate PlainEdges(value: string) {
    value != "" ==>
      !IsSpace(value[0]) && !IsSpace(value[|value| - 1]) && value[0] != '"' && value[|value| - 1] != '"'
  }

  lemma ReadBackIff(value: string)
    ensures ReadBack(value) == value <==> PlainEdges(value)
  {
    if value != "" && !IsSpace(value[0]) {
      assert TrimStart(value) == value;
    }
  }

  lemma {:induction false} TrimLacks(s: string, c: char)
    requires Lacks(s, c)
    ensures Lacks(TrimStart(s), c) && Lacks(TrimEnd(s), c)
    decreases |s|
  {
    if s != "" {
      TrimLacks(s[1..], c);
      TrimLacks(s[..|s| - 1], c);
    }
  }

  lemma ValueLacks(line: string, c: char)
    requires Lacks(line, c) && EntryOf(line).Some?
    ensures Lacks(EntryOf(line).value.value, c)
  {
    TrimLacks(line, c);
    TrimLacks(TrimStart(line), c);
    var t := Trim(line);
    var rest := t[Before(t, '=') + 1..];
    assert Lacks(rest, c);
    TrimLacks(rest, c);
    TrimLacks(TrimStart(rest), c);
  }

  /** No loaded value has a line feed in it. */
  lemma {:induction false} LoadedLacks(env: Env, lines: seq<string>, key: string)
    requires OneLine(lines) && (key in env ==> Lacks(env[key], '\n'))
    ensures var after := Load(env, lines); key in after ==> Lacks(after[key], '\n')
    decreases |lines|
  {
    if lines != [] {
      if EntryOf(lines[0]).Some? { ValueLacks(lines[0], '\n'); }
      LoadedLacks(LoadLine(env, lines[0]), lines[1..], key);
    }
  }

  lemma {:induction false} GivenStays(env: Env, lines: seq<string>, key: string)
    requires Given(env, key)
    ensures var after := Load(env, lines); key in after && after[key] == env[key]
    decreases |lines|
  {
    if lines != [] {
      GivenStays(LoadLine(env, lines[0]), lines[1..], key);
    }
  }

  predicate Holds(env: Env, key: string, value: string) {
    key in env && env[key] == value
  }

  /** A restart comes up with the written value exactly when the value has no line feed, edge white space or edge
      quote and the environment of the new process brings no other value of its own. */
  lemma RestartReadsIff(env: Env, content: string, key: string, value: string)
    requires PlainKey(key)
    ensures Holds(LoadFile(env, Some(Persisted(content, key, value))), key, value)
        <==> if Given(env, key) then env[key] == value else Lacks(value, '\n') && PlainEdges(value)
  {
    var lines := SplitLines(Persisted(content, key, value));
    if Given(env, key) {
      GivenStays(env, lines, key);
    } else if Lacks(value, '\n') {
      RoundTrip(env, content, key, value);
      ReadBackIff(value);
    } else {
      SplitOneLine(Persisted(content, key, value));
      LoadedLacks(env, lines, key);
    }
  }

  /** Every other setting is read as before, for every value without a line feed. */
  lemma OtherSettingsKept(env: Env, content: string, key: string, value: string, other: string)
    requires PlainKey(key) && Lacks(value, '\n') && other != key
    ensures var before, after := LoadFile(env, Some(content)), LoadFile(env, Some(Persisted(content, key, value)));
            (other in after <==> other in before) && (other in before ==> after[other] == before[other])
  {
    RoundTrip(env, content, key, value);
  }

  /** What a restart reads after a rotation that could be written, whether or not there was a file before. */
  lemma RotationThenRestart(env: Env, file: Option<string>, token: string)
    requires Lacks(token, '\n') && PlainEdges(token)
    ensures var before := LoadFile(env, file);
            LoadFile(env, Some(Persisted(ContentOf(file), TOKEN_KEY, token)))
            == if Given(env, "GATEWAY_TOKEN") then before else before["GATEWAY_TOKEN" := token]
  {
    var key := TOKEN_KEY;
    assert key[0] == 'G' && key[|key| - 1] == 'N';
    RoundTrip(env, ContentOf(file), key, token);
    ReadBackIff(token);
    LoadBlanks(env, [""]);
    assert SplitLines("") == [""];
  }

  // ---------------------------------------------------------------- writing twice

  predicate EndsInReturn(line: string) {
    line != "" && line[|line| - 1] == '\r'
  }

  predicate AnyReturn(lines: seq<string>) {
    lines != [] && (EndsInReturn(lines[0]) || AnyReturn(lines[1..]))
  }

  /** Every line for the key is the written one. */
  predicate Settled(lines: seq<string>, key: string, value: string) {
    lines == []
    || ((Assigns(lines[0], key) ==> lines[0] == Assignment(key, value)) && Settled(lines[1..], key, value))
  }

  lemma {:induction false} ReplacedSettled(lines: seq<string>, key: string, value: string)
    ensures Settled(Replaced(lines, key, value), key, value)
  {
    if lines != [] {
      assert Replaced(lines, key, value)[1..] == Replaced(lines[1..], key, value);
      ReplacedSettled(lines[1..], key, value);
    }
  }

  lemma {:induction false} SettledReplaced(lines: seq<string>, key: string, value: string)
    requires Settled(lines, key, value)
    ensures Replaced(lines, key, value) == lines
  {
    if lines != [] { SettledReplaced(lines[1..], key, value); }
  }

  lemma {:induction false} ReplacedHasKey(lines: seq<string>, key: string, value: string)
    requires PlainKey(key)
    ensures HasKey(Replaced(lines, key, value), key) == HasKey(lines, key)
  {
    if lines != [] {
      assert Replaced(lines, key, value)[1..] == Replaced(lines[1..], key, value);
      if Assigns(lines[0], key) { EntryOfAssignment(key, value); }
      ReplacedHasKey(lines[1..], key, value);
    }
  }

  lemma {:induction false} SettledConcat(a: seq<string>, b: seq<string>, key: string, value: string)
    ensures Settled(a + b, key, value) <==> Settled(a, key, value) && Settled(b, key, value)
  {
    if a == [] {
      assert a + b == b;
    } else {
      assert (a + b)[0] == a[0] && (a + b)[1..] == a[1..] + b;
      SettledConcat(a[1..], b, key, value);
    }
  }

  lemma {:induction false} HasKeyConcat(a: seq<string>, b: seq<string>, key: string)
    ensures HasKey(a + b, key) <==> HasKey(a, key) || HasKey(b, key)
  {
    if a == [] {
      assert a + b == b;
    } else {
      assert (a + b)[0] == a[0] && (a + b)[1..] == a[1..] + b;
      HasKeyConcat(a[1..], b, key);
    }
  }

  lemma UpsertedSettled(lines: seq<string>, key: string, value: string)
    requires PlainKey(key)
    ensures var u := Upserted(lines, key, value); Settled(u, key, value) && HasKey(u, key)
  {
    var r, w := Replaced(lines, key, value), [Assignment(key, value)];
    ReplacedSettled(lines, key, value);
    ReplacedHasKey(lines, key, value);
    SettledConcat(r, w, key, value);
    HasKeyConcat(r, w, key);
    EntryOfAssignment(key, value);
    assert w[1..] == [];
    assert r + [] == r;
  }

  lemma {:induction false} ChoppedSettled(lines: seq<string>, key: string, value: string)
    requires Settled(lines, key, value) && !EndsInReturn(Assignment(key, value))
    ensures Settled(Chopped(lines), key, value)
    ensures HasKey(Chopped(lines), key) == HasKey(lines, key)
  {
    if lines != [] {
      EntryOfChop(lines[0]);
      assert Assigns(Chop(lines[0]), key) == Assigns(lines[0], key);
      assert Chopped(lines)[1..] == Chopped(lines[1..]);
      ChoppedSettled(lines[1..], key, value);
    }
  }

  lemma {:induction false} BlanksHaveNoKey(blanks: seq<string>, key: string)
    requires forall i :: 0 <= i < |blanks| ==> blanks[i] == ""
    ensures !HasKey(blanks, key)
  {
    if blanks != [] { BlanksHaveNoKey(blanks[1..], key); }
  }

  lemma DropBlankSettled(lines: seq<string>, key: string, value: string)
    requires Settled(lines, key, value) && HasKey(lines, key)
    ensures Settled(DropBlank(lines), key, value) && HasKey(DropBlank(lines), key)
  {
    DropBlankMeans(lines);
    var kept := DropBlank(lines);
    var blanks := lines[|kept|..];
    assert kept + blanks == lines;
    SettledConcat(kept, blanks, key, value);
    HasKeyConcat(kept, blanks, key);
    BlanksHaveNoKey(blanks, key);
  }

  /** The lines a second write starts from. */
  lemma SecondLines(lines: seq<string>)
    requires OneLine(lines)
    ensures LinesOf(JoinLines(lines)) == DropBlank(Chopped(lines))
  {
    SplitJoined(lines);
    var c := Chopped(lines);
    assert (c + [""])[..|c|] == c;
    assert DropBlank(c + [""]) == DropBlank(c);
  }

  lemma {:induction false} ChoppedShorter(lines: seq<string>)
    ensures Chopped(lines) == lines <==> !AnyReturn(lines)
    ensures |JoinLines(Chopped(lines))| <= |JoinLines(lines)|
    ensures AnyReturn(lines) ==> |JoinLines(Chopped(lines))| < |JoinLines(lines)|
  {
    if lines != [] {
      assert lines == [lines[0]] + lines[1..];
      assert Chopped(lines)[1..] == Chopped(lines[1..]);
      ChoppedShorter(lines[1..]);
    }
  }

  lemma {:induction false} JoinPrefix(a: seq<string>, b: seq<string>)
    ensures JoinLines(a + b) == JoinLines(a) + JoinLines(b)
  {
    if a == [] {
      assert a + b == b;
    } else {
      assert (a + b)[0] == a[0] && (a + b)[1..] == a[1..] + b;
      JoinPrefix(a[1..], b);
    }
  }

  lemma DropBlankShorter(lines: seq<string>)
    ensures |JoinLines(DropBlank(lines))| <= |JoinLines(lines)|
  {
    DropBlankMeans(lines);
    var kept := DropBlank(lines);
    assert kept + lines[|kept|..] == lines;
    JoinPrefix(kept, lines[|kept|..]);
  }

  lemma UpsertedOneLine(content: string, key: string, value: string)
    requires Lacks(key, '\n') && Lacks(value, '\n')
    ensures OneLine(Upserted(LinesOf(content), key, value))
  {
    var lines := LinesOf(content);
    LinesOneLine(content);
    ReplacedOneLine(lines, key, value);
    AssignmentOneLine(key, value);
    OneLinePrefix(Replaced(lines, key, value), if HasKey(lines, key) then [] else [Assignment(key, value)]);
  }

  lemma {:induction false} ReplacedEnd(lines: seq<string>, key: string, value: string)
    requires lines != [] ==> lines[|lines| - 1] != ""
    ensures var r := Replaced(lines, key, value); |r| == |lines| && (r != [] ==> r[|r| - 1] != "")
  {
    if lines != [] {
      ReplacedEnd(lines[1..], key, value);
    }
  }

  lemma UpsertedEnd(content: string, key: string, value: string)
    ensures var u := Upserted(LinesOf(content), key, value); DropBlank(u) == u
  {
    DropBlankMeans(if content == "" then [] else SplitLines(content));
    ReplacedEnd(LinesOf(content), key, value);
  }

  /** Writing the same value twice writes the same file twice exactly when no written line ends in a carriage
      return; a CRLF pair never leaves one. */
  lemma TwiceIff(content: string, key: string, value: string)
    requires PlainKey(key) && Lacks(value, '\n') && PlainEdges(value)
    ensures var once := Persisted(content, key, value);
            Persisted(once, key, value) == once <==> !AnyReturn(Upserted(LinesOf(content), key, value))
  {
    var u := Upserted(LinesOf(content), key, value);
    var d := DropBlank(Chopped(u));
    UpsertedOneLine(content, key, value);
    SecondLines(u);
    UpsertedSettled(LinesOf(content), key, value);
    ChoppedSettled(u, key, value);
    DropBlankSettled(Chopped(u), key, value);
    SettledReplaced(d, key, value);
    assert Upserted(d, key, value) == d + [] == d;
    ChoppedShorter(u);
    DropBlankShorter(Chopped(u));
    UpsertedEnd(content, key, value);
  }

  /** Carriage returns stand only before line feeds. */
  predicate ReturnsPaired(content: string) {
    forall i :: 0 <= i < |content| && content[i] == '\r' ==> i + 1 < |content| && content[i + 1] == '\n'
  }

  lemma PairedRest(s: string, n: nat)
    requires ReturnsPaired(s) && n < |s|
    ensures ReturnsPaired(s[n + 1..])
  {
    var rest := s[n + 1..];
    forall i | 0 <= i < |rest| && rest[i] == '\r' ensures i + 1 < |rest| && rest[i + 1] == '\n' {
      assert s[n + 1 + i] == '\r';
    }
  }

  /** A line that ends at a line feed loses the only carriage return it can have. */
  lemma PairedLine(s: string, n: nat)
    requires ReturnsPaired(s) && n < |s| && Lacks(s[..n], '\n')
    ensures !EndsInReturn(Chop(s[..n]))
  {
    var first := s[..n];
    forall i | 0 <= i < n - 1 ensures first[i] != '\r' {
      assert first[i + 1] != '\n';
    }
  }

  lemma {:induction false} PairedSplit(s: string)
    requires ReturnsPaired(s)
    ensures !AnyReturn(SplitLines(s))
    decreases |s|
  {
    var n := Before(s, '\n');
    if n < |s| {
      PairedLine(s, n);
      PairedRest(s, n);
      PairedSplit(s[n + 1..]);
      assert SplitLines(s)[1..] == SplitLines(s[n + 1..]);
    } else {
      assert SplitLines(s)[1..] == [];
      assert !EndsInReturn(s);
    }
  }

  lemma {:induction false} AnyReturnConcat(a: seq<string>, b: seq<string>)
    ensures AnyReturn(a + b) <==> AnyReturn(a) || AnyReturn(b)
  {
    if a == [] {
      assert a + b == b;
    } else {
      assert (a + b)[0] == a[0] && (a + b)[1..] == a[1..] + b;
      AnyReturnConcat(a[1..], b);
    }
  }

  lemma {:induction false} ReplacedReturn(lines: seq<string>, key: string, value: string)
    requires !AnyReturn(lines) && !EndsInReturn(Assignment(key, value))
    ensures !AnyReturn(Replaced(lines, key, value))
  {
    if lines != [] {
      assert Replaced(lines, key, value)[1..] == Replaced(lines[1..], key, value);
      ReplacedReturn(lines[1..], key, value);
    }
  }

  lemma KeptReturn(content: string)
    requires ReturnsPaired(content)
    ensures !AnyReturn(LinesOf(content))
  {
    var all := if content == "" then [] else SplitLines(content);
    var kept := LinesOf(content);
    PairedSplit(content);
    DropBlankMeans(all);
    assert kept + all[|kept|..] == all;
    AnyReturnConcat(kept, all[|kept|..]);
  }

  lemma UpsertedReturn(lines: seq<string>, key: string, value: string)
    requires !AnyReturn(lines) && !EndsInReturn(Assignment(key, value))
    ensures !AnyReturn(Upserted(lines, key, value))
  {
    var w := [Assignment(key, value)];
    ReplacedReturn(lines, key, value);
    AnyReturnConcat(Replaced(lines, key, value), w);
    assert w[1..] == [];
    assert Replaced(lines, key, value) + [] == Replaced(lines, key, value);
  }

  /** So a file whose carriage returns all belong to CRLF pairs is settled by one write. */
  lemma PairedTwice(content: string, key: string, value: string)
    requires PlainKey(key) && Lacks(value, '\n') && PlainEdges(value) && ReturnsPaired(content)
    ensures var once := Persisted(content, key, value); Persisted(once, key, value) == once
  {
    KeptReturn(content);
    UpsertedReturn(LinesOf(content), key, value);
    TwiceIff(content, key, value);
  }
}
