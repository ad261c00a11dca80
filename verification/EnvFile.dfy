/** The `.env` file: the reader that fills the environment at start-up, and the writer that replaces the gateway
    token in it (config.js and token-rotation.js). */
module EnvFile {
  import opened Options
  import opened Text

  type Env = map<string, string>

  const TOKEN_KEY := "GATEWAY_TOKEN"

  /** What `trim` removes: white space and line terminators. */
  predicate IsSpace(c: char) {
    || c in {'\t', '\n', '\U{B}', '\U{C}', '\r', ' ', '\U{A0}', '\U{1680}', '\U{2028}', '\U{2029}', '\U{202F}',
             '\U{205F}', '\U{3000}', '\U{FEFF}'}
    || '\U{2000}' <= c <= '\U{200A}'
  }

  function TrimStart(s: string): (r: string)
    ensures |r| <= |s|
  {
    if s != "" && IsSpace(s[0]) then TrimStart(s[1..]) else s
  }

  function TrimEnd(s: string): (r: string)
    ensures |r| <= |s|
  {
    if s != "" && IsSpace(s[|s| - 1]) then TrimEnd(s[..|s| - 1]) else s
  }

  function Trim(s: string): string {
    TrimEnd(TrimStart(s))
  }

  /** Without one carriage return at the end. */
  function Chop(line: string): string {
    if line != "" && line[|line| - 1] == '\r' then line[..|line| - 1] else line
  }

  /** The pieces between line feeds, each without the carriage return of a CRLF pair. */
  function SplitLines(s: string): (lines: seq<string>)
    ensures lines != []
    decreases |s|
  {
    var n := Before(s, '\n');
    if n == |s| then [s] else [Chop(s[..n])] + SplitLines(s[n + 1..])
  }

  function Unquote(s: string): string {
    var t := if s != "" && s[0] == '"' then s[1..] else s;
    if t != "" && t[|t| - 1] == '"' then t[..|t| - 1] else t
  }

  // ---------------------------------------------------------------- reading

  datatype Entry = Entry(key: string, value: string)

  /** The assignment on a line: nothing on a blank line, on a comment and on a line without an equals sign. */
  function EntryOf(line: string): Option<Entry> {
    var t := Trim(line);
    if t == "" || t[0] == '#' || Lacks(t, '=') then None
    else
      var i := Before(t, '=');
      Some(Entry(Trim(t[..i]), Unquote(Trim(t[i + 1..]))))
  }

  predicate Given(env: Env, key: string) {
    key in env && env[key] != ""
  }

  /** The first non-empty value wins, and one already in the environment comes first. */
  function LoadLine(env: Env, line: string): Env {
    match EntryOf(line)
    case None => env
    case Some(e) => if Given(env, e.key) then env else env[e.key := e.value]
  }

  function Load(env: Env, lines: seq<string>): Env
    decreases |lines|
  {
    if lines == [] then env else Load(LoadLine(env, lines[0]), lines[1..])
  }

  /** The environment after start-up; there may be no file. */
  function LoadFile(env: Env, file: Option<string>): Env {
    match file
    case None => env
    case Some(content) => Load(env, SplitLines(content))
  }

  method Parse(line: string) returns (entry: Option<Entry>)
    ensures entry == EntryOf(line)
  {
    var trimmed := Trim(line);
    if trimmed == "" || trimmed[0] == '#' { return None; }
    if Lacks(trimmed, '=') { return None; }
    var at := Before(trimmed, '=');
    return Some(Entry(Trim(trimmed[..at]), Unquote(Trim(trimmed[at + 1..]))));
  }

  method LoadDotEnv(env: Env, file: Option<string>) returns (loaded: Env)
    ensures loaded == LoadFile(env, file)
  {
    loaded := env;
    if file.None? { return; }
    var lines := SplitLines(file.value);
    var i := 0;
    while i < |lines|
      invariant 0 <= i <= |lines|
      invariant Load(env, lines) == Load(loaded, lines[i..])
    {
      assert lines[i..][1..] == lines[i + 1..];
      var entry := Parse(lines[i]);
      if entry.Some? && (entry.value.key !in loaded || loaded[entry.value.key] == "") {
        loaded := loaded[entry.value.key := entry.value.value];
      }
      i := i + 1;
    }
  }

  // ---------------------------------------------------------------- writing

  predicate Assigns(line: string, key: string) {
    EntryOf(line).Some? && EntryOf(line).value.key == key
  }

  function Assignment(key: string, value: string): string {
    key + ['='] + value
  }

  function DropBlank(lines: seq<string>): seq<string> {
    if lines != [] && lines[|lines| - 1] == "" then DropBlank(lines[..|lines| - 1]) else lines
  }

  function Replaced(lines: seq<string>, key: string, value: string): seq<string> {
    if lines == [] then []
    else [if Assigns(lines[0], key) then Assignment(key, value) else lines[0]] + Replaced(lines[1..], key, value)
  }

  predicate HasKey(lines: seq<string>, key: string) {
    lines != [] && (Assigns(lines[0], key) || HasKey(lines[1..], key))
  }

  function Upserted(lines: seq<string>, key: string, value: string): seq<string> {
    Replaced(lines, key, value) + if HasKey(lines, key) then [] else [Assignment(key, value)]
  }

  function JoinLines(lines: seq<string>): string {
    if lines == [] then "" else lines[0] + ['\n'] + JoinLines(lines[1..])
  }

  /** The lines of a file but for the blank ones at its end. */
  function LinesOf(content: string): seq<string> {
    DropBlank(if content == "" then [] else SplitLines(content))
  }

  /** The file that is written. */
  function Persisted(content: string, key: string, value: string): string {
    JoinLines(Upserted(LinesOf(content), key, value))
  }

  /** A missing file counts as an empty one. */
  function ContentOf(file: Option<string>): string {
    if file.Some? then file.value else ""
  }

  /** The lines of the file but for blank ones at its end, each in its place; one that assigns the key becomes the
      assignment, and that is added at the end if there was none. */
  predicate Written(before: seq<string>, after: seq<string>, key: string, value: string) {
    && |after| == |before| + (if exists i :: 0 <= i < |before| && Assigns(before[i], key) then 0 else 1)
    && (forall i :: 0 <= i < |before| ==>
          after[i] == if Assigns(before[i], key) then key + "=" + value else before[i])
    && (|after| > |before| ==> after[|before|] == key + "=" + value)
  }

  lemma WrittenMeans(content: string, key: string, value: string)
    ensures Persisted(content, key, value) == JoinLines(Upserted(LinesOf(content), key, value))
    ensures Written(LinesOf(content), Upserted(LinesOf(content), key, value), key, value)
    ensures var kept, all := LinesOf(content), SplitLines(content);
            && |kept| <= |all| && kept == all[..|kept|] && (kept != [] ==> kept[|kept| - 1] != "")
            && forall i :: |kept| <= i < |all| ==> all[i] == ""
  {
    UpsertedWritten(LinesOf(content), key, value);
    KeptLines(if content == "" then [] else SplitLines(content));
    assert SplitLines("") == [""];
  }

  lemma {:induction false} ReplacedAt(lines: seq<string>, key: string, value: string, i: nat)
    requires i < |lines|
    ensures |Replaced(lines, key, value)| == |lines|
    ensures Replaced(lines, key, value)[i] == if Assigns(lines[i], key) then key + "=" + value else lines[i]
  {
    if |lines| > 1 {
      ReplacedAt(lines[1..], key, value, if i == 0 then 0 else i - 1);
    }
  }

  lemma {:induction false} HasKeyIff(lines: seq<string>, key: string)
    ensures HasKey(lines, key) <==> exists i :: 0 <= i < |lines| && Assigns(lines[i], key)
  {
    if lines != [] {
      HasKeyIff(lines[1..], key);
      assert forall i :: 0 < i < |lines| ==> lines[i] == lines[1..][i - 1];
      if i :| 0 <= i < |lines[1..]| && Assigns(lines[1..][i], key) {
        assert Assigns(lines[i + 1], key);
      }
    }
  }

  lemma UpsertedWritten(lines: seq<string>, key: string, value: string)
    ensures Written(lines, Upserted(lines, key, value), key, value)
  {
    HasKeyIff(lines, key);
    forall i | 0 <= i < |lines| ensures |Replaced(lines, key, value)| == |lines|
        && Replaced(lines, key, value)[i] == if Assigns(lines[i], key) then key + "=" + value else lines[i] {
      ReplacedAt(lines, key, value, i);
    }
  }

  lemma {:induction false} KeptLines(lines: seq<string>)
    ensures var kept := DropBlank(lines);
            && |kept| <= |lines| && kept == lines[..|kept|] && (kept != [] ==> kept[|kept| - 1] != "")
            && forall i :: |kept| <= i < |lines| ==> lines[i] == ""
  {
    if lines != [] && lines[|lines| - 1] == "" {
      KeptLines(lines[..|lines| - 1]);
    }
  }

  lemma RestOf(lines: seq<string>, i: nat, key: string, value: string)
    requires i < |lines|
    ensures Replaced(lines[i..], key, value)
         == [if Assigns(lines[i], key) then Assignment(key, value) else lines[i]] + Replaced(lines[i + 1..], key, value)
    ensures HasKey(lines[i..], key) == (Assigns(lines[i], key) || HasKey(lines[i + 1..], key))
  {
    assert lines[i..][1..] == lines[i + 1..];
  }

  lemma Associates(a: seq<string>, b: seq<string>, c: seq<string>)
    ensures a + (b + c) == (a + b) + c
  {
  }

  method Names(line: string, key: string) returns (yes: bool)
    ensures yes == Assigns(line, key)
  {
    var entry := Parse(line);
    return entry.Some? && entry.value.key == key;
  }

  method ReplaceLines(lines: seq<string>, key: string, value: string) returns (updatedLines: seq<string>, replaced: bool)
    ensures updatedLines == Replaced(lines, key, value)
    ensures replaced == HasKey(lines, key)
  {
    replaced := false;
    updatedLines := [];
    var i := 0;
    while i < |lines|
      invariant 0 <= i <= |lines|
      invariant Replaced(lines, key, value) == updatedLines + Replaced(lines[i..], key, value)
      invariant HasKey(lines, key) == (replaced || HasKey(lines[i..], key))
    {
      RestOf(lines, i, key, value);
      var ours := Names(lines[i], key);
      var line := if ours then Assignment(key, value) else lines[i];
      Associates(updatedLines, [line], Replaced(lines[i + 1..], key, value));
      if ours { replaced := true; }
      updatedLines := updatedLines + [line];
      i := i + 1;
    }
  }

  method BuildContent(content: string, key: string, value: string) returns (updated: string)
    ensures updated == Persisted(content, key, value)
  {
    var lines := if content == "" then [] else SplitLines(content);
    ghost var all := lines;
    while lines != [] && lines[|lines| - 1] == ""
      invariant DropBlank(all) == DropBlank(lines)
    {
      lines := lines[..|lines| - 1];
    }
    var updatedLines, replaced := ReplaceLines(lines, key, value);
    if !replaced {
      updatedLines := updatedLines + [Assignment(key, value)];
    }
    assert updatedLines == Upserted(lines, key, value);
    updated := JoinLines(updatedLines);
  }

  /** The running agent's two copies of the token and the file a restart reads. */
  class Process {
    var backendToken: string
    var configToken: string
    var envFile: Option<string>

    /** `readFails` is a read error other than a missing file. */
    method PersistRotatedToken(newToken: string, readFails: bool, writeFails: bool) returns (thrown: bool)
      modifies this`envFile
      ensures thrown == (readFails || writeFails)
      ensures thrown ==> envFile == old(envFile)
      ensures !thrown ==> envFile == Some(Persisted(ContentOf(old(envFile)), TOKEN_KEY, newToken))
    {
      if readFails { return true; }
      var content := "";
      if envFile.Some? { content := envFile.value; }
      var updated := BuildContent(content, TOKEN_KEY, newToken);
      if writeFails { return true; }
      envFile := Some(updated);
      return false;
    }

    /** A repeated or absent token changes nothing. A new one is in use at once, whether or not it could be written. */
    method ApplyRotatedToken(newToken: Option<string>, readFails: bool, writeFails: bool)
      modifies this
      ensures var isNew := newToken.Some? && newToken.value != "" && newToken.value != old(configToken);
              && (!isNew ==> backendToken == old(backendToken) && configToken == old(configToken) && envFile == old(envFile))
              && (isNew ==> backendToken == configToken == newToken.value)
              && (isNew ==> envFile == if readFails || writeFails then old(envFile)
                                        else Some(Persisted(ContentOf(old(envFile)), TOKEN_KEY, newToken.value)))
    {
      if newToken.None? || newToken.value == "" || newToken.value == configToken { return; }
      backendToken := newToken.value;
      configToken := newToken.value;
      var _ := PersistRotatedToken(newToken.value, readFails, writeFails);
    }
  }

  // ---------------------------------------------------------------- trimming

  /** White space at the end of a text does not survive trimming, so neither does the carriage return of a CRLF. */
  lemma {:induction false} TrimSpaceEnd(s: string)
    requires s != "" && IsSpace(s[|s| - 1])
    ensures Trim(s[..|s| - 1]) == Trim(s)
    decreases |s|
  {
    var a := s[..|s| - 1];
    if a != "" && IsSpace(s[0]) {
      assert s[1..][..|s| - 2] == a[1..];
      TrimSpaceEnd(s[1..]);
    } else if a == "" {
      assert s[1..] == "";
    }
  }

  lemma {:induction false} TrimTrimEnd(s: string)
    ensures Trim(TrimEnd(s)) == Trim(s)
    decreases |s|
  {
    if s != "" && IsSpace(s[|s| - 1]) {
      TrimSpaceEnd(s);
      TrimTrimEnd(s[..|s| - 1]);
    }
  }

  lemma {:induction false} TrimEndAfter(p: string, s: string)
    requires p != "" && !IsSpace(p[|p| - 1])
    ensures TrimEnd(p + s) == p + TrimEnd(s)
    decreases |s|
  {
    if s == "" {
      assert p + s == p;
    } else {
      assert (p + s)[..|p + s| - 1] == p + s[..|s| - 1];
      if IsSpace(s[|s| - 1]) { TrimEndAfter(p, s[..|s| - 1]); }
    }
  }

  lemma TrimChop(line: string)
    ensures Trim(Chop(line)) == Trim(line)
  {
    if line != "" && line[|line| - 1] == '\r' { TrimSpaceEnd(line); }
  }

  /** The reader looks at the trimmed line only. */
  lemma EntryOfTrim(a: string, b: string)
    requires Trim(a) == Trim(b)
    ensures EntryOf(a) == EntryOf(b)
  {
  }

  lemma EntryOfChop(line: string)
    ensures EntryOf(Chop(line)) == EntryOf(line)
  {
    TrimChop(line);
    EntryOfTrim(Chop(line), line);
  }

  /** What the reader makes of a written value. */
  function ReadBack(value: string): string {
    Unquote(Trim(value))
  }

  /** Keys the reader gives back as they were written. */
  predicate PlainKey(key: string) {
    key != "" && key[0] != '#' && !IsSpace(key[0]) && !IsSpace(key[|key| - 1]) && Lacks(key, '=') && Lacks(key, '\n')
  }

  lemma EntryOfAssignment(key: string, value: string)
    requires PlainKey(key)
    ensures EntryOf(Assignment(key, value)) == Some(Entry(key, ReadBack(value)))
  {
    var p := key + ['='];
    assert Assignment(key, value)[0] == key[0];
    TrimEndAfter(p, value);
    var t := Trim(Assignment(key, value));
    assert t == key + ['='] + TrimEnd(value);
    BeforeSeparator(key, '=', TrimEnd(value));
    HasSeparator(key, '=', TrimEnd(value));
    assert t[0] == key[0] && t[..|key|] == key && t[|key| + 1..] == TrimEnd(value);
    TrimTrimEnd(value);
  }

  // ---------------------------------------------------------------- what the reader makes of a line

  predicate AllSpace(s: string) {
    forall i :: 0 <= i < |s| ==> IsSpace(s[i])
  }

  /** Nothing that trimming takes away at either end. */
  predicate Tight(s: string) {
    s == "" || (!IsSpace(s[0]) && !IsSpace(s[|s| - 1]))
  }

  lemma {:induction false} TrimStartPadded(w: string, s: string)
    requires AllSpace(w)
    ensures TrimStart(w + s) == TrimStart(s)
  {
    if w == "" {
      assert w + s == s;
    } else {
      assert (w + s)[0] == w[0] && (w + s)[1..] == w[1..] + s;
      TrimStartPadded(w[1..], s);
    }
  }

  lemma {:induction false} TrimEndPadded(s: string, w: string)
    requires AllSpace(w)
    ensures TrimEnd(s + w) == TrimEnd(s)
    decreases |w|
  {
    if w == "" {
      assert s + w == s;
    } else {
      assert (s + w)[|s + w| - 1] == w[|w| - 1] && (s + w)[..|s + w| - 1] == s + w[..|w| - 1];
      TrimEndPadded(s, w[..|w| - 1]);
    }
  }

  /** Trimming takes the white space around a text away and nothing else. */
  lemma TrimPadded(w: string, core: string, w': string)
    requires AllSpace(w) && AllSpace(w') && Tight(core)
    ensures Trim(w + core + w') == core
  {
    assert w + core + w' == w + (core + w');
    TrimStartPadded(w, core + w');
    if core == "" {
      assert core + w' == w' && w' + "" == w' && "" + w' == w';
      TrimStartPadded(w', "");
    } else {
      assert (core + w')[0] == core[0];
      TrimEndPadded(core, w');
    }
  }

  /** A text with at most one quote put before and after it. */
  function Quoted(open_: bool, s: string, close: bool): string {
    (if open_ then ['"'] else []) + s + (if close then ['"'] else [])
  }

  /** A value that neither trimming nor unquoting touches. */
  predicate Bare(s: string) {
    Tight(s) && (s == "" || (s[0] != '"' && s[|s| - 1] != '"'))
  }

  lemma UnquoteQuoted(open_: bool, s: string, close: bool)
    requires Bare(s)
    ensures Unquote(Quoted(open_, s, close)) == s && Tight(Quoted(open_, s, close))
  {
    var q := Quoted(open_, s, close);
    if open_ {
      assert q[0] == '"' && q[1..] == s + (if close then ['"'] else []);
    }
    if close {
      var t := if open_ then q[1..] else q;
      if s == "" && !open_ {
        assert q == ['"'];
        assert q[1..] == "";
      } else {
        assert t == s + ['"'] && t[..|t| - 1] == s;
      }
    } else {
      assert s + [] == s;
    }
  }

  lemma SpaceLacks(w: string)
    requires AllSpace(w)
    ensures Lacks(w, '=')
  {
  }

  /** What is left of an assignment line once the white space around it is gone. */
  lemma LineTrims(w0: string, name: string, w2: string, body: string, w3: string)
    requires AllSpace(w0) && AllSpace(w2) && AllSpace(w3) && name != "" && !IsSpace(name[0]) && Tight(body)
    ensures Trim(w0 + (name + ['='] + (w2 + body)) + w3) == name + ['='] + if body == "" then "" else w2 + body
  {
    var rest := if body == "" then "" else w2 + body;
    var core := name + ['='] + rest;
    assert core[0] == name[0] && core[|name|] == '=';
    if body == "" {
      assert w0 + (name + ['='] + (w2 + body)) + w3 == w0 + core + (w2 + w3);
      TrimPadded(w0, core, w2 + w3);
    } else {
      assert core[|core| - 1] == body[|body| - 1];
      TrimPadded(w0, core, w3);
    }
  }

  /** An assignment with white space around key and value and quotes around the value reads as the bare pair. */
  lemma PaddedEntry(w0: string, key: string, w1: string, w2: string, open_: bool, value: string, close: bool, w3: string)
    requires AllSpace(w0) && AllSpace(w1) && AllSpace(w2) && AllSpace(w3)
    requires key != "" && Tight(key) && key[0] != '#' && Lacks(key, '=') && Bare(value)
    ensures EntryOf(w0 + (key + w1 + ['='] + (w2 + Quoted(open_, value, close))) + w3) == Some(Entry(key, value))
  {
    var name, body := key + w1, Quoted(open_, value, close);
    UnquoteQuoted(open_, value, close);
    assert name[0] == key[0];
    LineTrims(w0, name, w2, body, w3);
    SpaceLacks(w1);
    LacksConcat(key, w1, '=');
    CoreEntry(name, if body == "" then "" else w2 + body, key, body, value, w1, if body == "" then "" else w2);
  }

  lemma CoreEntry(name: string, rest: string, key: string, body: string, value: string, w1: string, w2: string)
    requires name == key + w1 && rest == w2 + body && AllSpace(w1) && AllSpace(w2)
    requires key != "" && Tight(key) && key[0] != '#' && Lacks(name, '=') && Tight(body) && Unquote(body) == value
    ensures var t := name + ['='] + rest;
            t != "" && t[0] != '#' && !Lacks(t, '=') && Before(t, '=') == |name|
            && Trim(t[..|name|]) == key && Unquote(Trim(t[|name| + 1..])) == value
  {
    var t := name + ['='] + rest;
    BeforeSeparator(name, '=', rest);
    HasSeparator(name, '=', rest);
    assert t[0] == key[0] && t[..|name|] == name && t[|name| + 1..] == rest;
    assert [] + key + w1 == name && w2 + body + [] == rest;
    TrimPadded([], key, w1);
    TrimPadded(w2, body, []);
  }

  /** A line without an equals sign, a blank line, and a line that starts with a number sign, indented or not, read as
      nothing. */
  lemma NoEntry(w: string, rest: string)
    requires AllSpace(w)
    ensures EntryOf(w) == None
    ensures Lacks(rest, '=') ==> EntryOf(rest) == None
    ensures EntryOf(w + (['#'] + rest)) == None
  {
    assert w + "" + "" == w;
    TrimPadded(w, "", "");
    if Lacks(rest, '=') {
      TrimLacksEquals(rest);
    }
    TrimStartPadded(w, ['#'] + rest);
    assert TrimStart(['#'] + rest) == ['#'] + rest;
    TrimEndAfter(['#'], rest);
  }

  lemma {:induction false} TrimStartLacks(s: string, c: char)
    requires Lacks(s, c)
    ensures Lacks(TrimStart(s), c)
  {
    if s != "" && IsSpace(s[0]) {
      TrimStartLacks(s[1..], c);
    }
  }

  lemma {:induction false} TrimEndLacks(s: string, c: char)
    requires Lacks(s, c)
    ensures Lacks(TrimEnd(s), c)
    decreases |s|
  {
    if s != "" && IsSpace(s[|s| - 1]) {
      TrimEndLacks(s[..|s| - 1], c);
    }
  }

  lemma TrimLacksEquals(s: string)
    requires Lacks(s, '=')
    ensures Lacks(Trim(s), '=')
  {
    TrimStartLacks(s, '=');
    TrimEndLacks(TrimStart(s), '=');
  }

  // ---------------------------------------------------------------- which value of a key is used

  /** The line gives the key a value that is not empty. */
  predicate GivesValue(line: string, key: string, value: string) {
    EntryOf(line) == Some(Entry(key, value)) && value != ""
  }

  /** The line gives the key no value, or an empty one. */
  predicate GivesNone(line: string, key: string) {
    EntryOf(line).Some? && EntryOf(line).value.key == key ==> EntryOf(line).value.value == ""
  }

  /** One line: the key is given a value by it, or none. */
  lemma LoadLineMeans(env: Env, line: string, key: string)
    requires !Given(env, key)
    ensures GivesNone(line, key) ==> !Given(LoadLine(env, line), key)
    ensures forall value :: GivesValue(line, key, value) ==> Given(LoadLine(env, line), key) && LoadLine(env, line)[key] == value
  {
  }

  /** A value the environment brings stays, whatever the file says. */
  lemma {:induction false} LoadKeeps(env: Env, lines: seq<string>, key: string)
    requires Given(env, key)
    ensures Given(Load(env, lines), key) && Load(env, lines)[key] == env[key]
    decreases |lines|
  {
    if lines != [] {
      LoadKeeps(LoadLine(env, lines[0]), lines[1..], key);
    }
  }

  /** Otherwise the first line that gives the key a value counts, whatever stands behind it. */
  lemma {:induction false} LoadFirst(env: Env, lines: seq<string>, i: nat, key: string, value: string)
    requires !Given(env, key) && i < |lines| && GivesValue(lines[i], key, value)
    requires forall j :: 0 <= j < i ==> GivesNone(lines[j], key)
    ensures Given(Load(env, lines), key) && Load(env, lines)[key] == value
    decreases |lines|
  {
    var next := LoadLine(env, lines[0]);
    LoadLineMeans(env, lines[0], key);
    if i == 0 {
      LoadKeeps(next, lines[1..], key);
    } else {
      assert GivesNone(lines[0], key);
      forall j | 0 <= j < i - 1 ensures GivesNone(lines[1..][j], key) {
        assert lines[1..][j] == lines[j + 1];
      }
      LoadFirst(next, lines[1..], i - 1, key, value);
    }
  }

  lemma {:induction false} LoadNone(env: Env, lines: seq<string>, key: string)
    requires !Given(env, key) && forall i :: 0 <= i < |lines| ==> GivesNone(lines[i], key)
    ensures !Given(Load(env, lines), key)
    decreases |lines|
  {
    if lines != [] {
      LoadLineMeans(env, lines[0], key);
      assert GivesNone(lines[0], key);
      assert forall j :: 0 <= j < |lines| - 1 ==> lines[1..][j] == lines[j + 1];
      LoadNone(LoadLine(env, lines[0]), lines[1..], key);
    }
  }
}
