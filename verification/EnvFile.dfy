/**
 The agent's credential file: shell-quoted assignments written by persistAgentEnv
 and read back by explicitEnvValues, among lines that belong to the user.
 */
module EnvFile {
  import opened Base
  import opened Text
  import opened Sorting
  import GraphIds

  const ACCESS: string := "CANTER_AGENT_ACCESS_TOKEN"
  const REFRESH: string := "CANTER_AGENT_REFRESH_TOKEN"
  const OLD_ACCESS: string := "CANTER_ACCESS_TOKEN"
  const OLD_REFRESH: string := "CANTER_REFRESH_TOKEN"
  const EXPORT: string := "export "
  const BANNER: string := ("# Canter agent " + "credentials. ") + ("Treat this " + "file as a secret.")

  /** The scanner's buffer, which holds a line and its end. */
  const SCANNER_BYTES: nat := 65536

  /** The largest file that either side reads. */
  const FILE_BYTES: nat := 1048576

  // ----- text ------------------------------------------------------------------------------------------

  function Flat(lines: seq<string>): string {
    if lines == [] then "" else lines[0] + "\n" + Flat(lines[1..])
  }

  /** The lines of a text; a last line need not be terminated. */
  function Lines(text: string): seq<string> {
    if text == "" then []
    else if text[0] == '\n' then [""] + Lines(text[1..])
    else Longer(text[0], Lines(text[1..]))
  }

  /** One more character at the head of the first line. */
  function Longer(c: char, lines: seq<string>): seq<string> {
    if lines == [] then [[c]] else [[c] + lines[0]] + lines[1..]
  }

  lemma {:induction false} LinesStart(line: string, rest: string)
    requires Without('\n', line)
    ensures Lines(line + "\n" + rest) == [line] + Lines(rest)
  {
    var text := line + "\n" + rest;
    if line == "" {
      assert text[1..] == rest;
    } else {
      LinesStart(line[1..], rest);
      assert text[1..] == line[1..] + "\n" + rest;
      assert line == [line[0]] + line[1..];
    }
  }

  /** Writing lines and splitting the text gives the lines back. */
  lemma {:induction false} LinesFlat(lines: seq<string>)
    requires forall i :: 0 <= i < |lines| ==> Without('\n', lines[i])
    ensures Lines(Flat(lines)) == lines
  {
    if lines != [] {
      LinesFlat(lines[1..]);
      LinesStart(lines[0], Flat(lines[1..]));
      assert lines == [lines[0]] + lines[1..];
    }
  }

  lemma {:induction false} LinesAreLines(text: string)
    ensures forall i :: 0 <= i < |Lines(text)| ==> Without('\n', Lines(text)[i])
  {
    if text != "" { LinesAreLines(text[1..]); }
  }

  // ----- size ------------------------------------------------------------------------------------------

  /** The bytes of lines with their ends. */
  function Bulk(lines: seq<string>): nat {
    if lines == [] then 0 else Bulk(lines[..|lines| - 1]) + Size(lines[|lines| - 1]) + 1
  }

  lemma {:induction false} BulkAppend(a: seq<string>, b: seq<string>)
    ensures Bulk(a + b) == Bulk(a) + Bulk(b)
  {
    if b == [] {
      assert a + b == a;
    } else {
      BulkAppend(a, b[..|b| - 1]);
      assert (a + b)[..|a + b| - 1] == a + b[..|b| - 1];
    }
  }

  lemma BulkOne(line: string)
    ensures Bulk([line]) == Size(line) + 1
  {
    assert [line][..0] == [];
  }

  lemma {:induction false} FlatSize(lines: seq<string>)
    ensures Size(Flat(lines)) == Bulk(lines)
  {
    if lines != [] {
      FlatSize(lines[1..]);
      SizeAppend(lines[0] + "\n", Flat(lines[1..]));
      SizeAppend(lines[0], "\n");
      SizeOne('\n');
      BulkOne(lines[0]);
      BulkAppend([lines[0]], lines[1..]);
      assert lines == [lines[0]] + lines[1..];
    }
  }

  // ----- quoting ---------------------------------------------------------------------------------------

  /** What one quote becomes inside a quoted value. */
  const ESCAPE: string := "'\"'\"'"

  function Escape(s: string): string {
    if s == "" then "" else (if s[0] == '\'' then ESCAPE else [s[0]]) + Escape(s[1..])
  }

  /** strings.ReplaceAll of the escape by a quote. */
  function Unescape(s: string): string {
    if |s| >= 5 && s[..5] == ESCAPE then "'" + Unescape(s[5..])
    else if s == "" then ""
    else [s[0]] + Unescape(s[1..])
  }

  function ShellQuote(s: string): string {
    "'" + Escape(s) + "'"
  }

  lemma {:induction false} UnescapeEscape(s: string)
    ensures Unescape(Escape(s)) == s
  {
    if s != "" {
      UnescapeEscape(s[1..]);
      var e := Escape(s);
      assert s == [s[0]] + s[1..];
      if s[0] == '\'' {
        assert e[..5] == ESCAPE && e[5..] == Escape(s[1..]);
      } else {
        assert e[0] == s[0] && e[1..] == Escape(s[1..]);
        assert |e| >= 5 ==> e[..5][0] == s[0] != ESCAPE[0];
      }
    }
  }

  /** How many quotes a value holds; each grows by four bytes. */
  function Quotes(s: string): nat {
    if s == "" then 0 else (if s[0] == '\'' then 1 else 0) + Quotes(s[1..])
  }

  lemma EscapeBytes()
    ensures Size(ESCAPE) == 5 && Size("'") == 1
  {
    SizeOne('\'');
    SizeOne('"');
    assert ESCAPE == "'" + ("\"" + ("'" + ("\"" + "'")));
    SizeAppend("\"", "'");
    SizeAppend("'", "\"" + "'");
    SizeAppend("\"", "'" + ("\"" + "'"));
    SizeAppend("'", "\"" + ("'" + ("\"" + "'")));
  }

  lemma {:induction false} EscapeSize(s: string)
    ensures Size(Escape(s)) == Size(s) + 4 * Quotes(s)
  {
    if s != "" {
      EscapeSize(s[1..]);
      EscapeBytes();
      SizeOne(s[0]);
      SizeAppend(if s[0] == '\'' then ESCAPE else [s[0]], Escape(s[1..]));
    }
  }

  lemma {:induction false} EscapeWithout(s: string)
    requires Without('\n', s)
    ensures Without('\n', Escape(s))
  {
    if s != "" { EscapeWithout(s[1..]); }
  }

  /** The reader's treatment of a value. */
  function Unquote(v: string): string {
    if |v| >= 2 && v[0] == '\'' && v[|v| - 1] == '\'' then Unescape(v[1..|v| - 1])
    else if |v| >= 2 && v[0] == '"' && v[|v| - 1] == '"' then v[1..|v| - 1]
    else v
  }

  lemma UnquoteQuote(s: string)
    ensures Unquote(ShellQuote(s)) == s && Tight(ShellQuote(s))
  {
    var q := ShellQuote(s);
    assert q[1..|q| - 1] == Escape(s);
    UnescapeEscape(s);
  }

  // ----- one line --------------------------------------------------------------------------------------

  /** The position of the first `=`, or the length. */
  function Equals(s: string): (i: nat)
    ensures i <= |s| && Without('=', s[..i]) && (i < |s| ==> s[i] == '=')
  {
    if s == "" then 0 else if s[0] == '=' then 0 else 1 + Equals(s[1..])
  }

  function Unexport(s: string): string {
    if EXPORT <= s then s[7..] else s
  }

  datatype Assignment = Assignment(key: string, value: string)

  /** One line as explicitEnvValues reads it. */
  function Parse(line: string): Option<Assignment> {
    var l := Trim(line);
    if l == "" || l[0] == '#' then None
    else
      var m := Unexport(l);
      var i := Equals(m);
      if i == |m| then None else Some(Assignment(Trim(m[..i]), Unquote(Trim(m[i + 1..]))))
  }

  /** The key that persistAgentEnv sees in a line. */
  function KeyOf(line: string): Option<string> {
    var m := Trim(Unexport(Trim(line)));
    var i := Equals(m);
    if i == |m| then None else Some(Trim(m[..i]))
  }

  lemma {:induction false} EqualsAt(s: string, i: nat)
    requires i < |s| && s[i] == '=' && Without('=', s[..i])
    ensures Equals(s) == i
  {
    if i > 0 {
      assert s[0] == s[..i][0];
      assert s[1..][..i - 1] == s[..i][1..];
      EqualsAt(s[1..], i - 1);
    }
  }

  lemma {:induction false} EqualsNone(s: string)
    requires Without('=', s)
    ensures Equals(s) == |s|
  {
    if s != "" { EqualsNone(s[1..]); }
  }

  /** Trimming a line does not change the key before its first `=`. */
  lemma TrimKeepsKey(m: string)
    requires Equals(m) < |m|
    ensures Equals(Trim(m)) < |Trim(m)| && Trim(Trim(m)[..Equals(Trim(m))]) == Trim(m[..Equals(m)])
  {
    var a, b := TrimSplit(m);
    var i := Equals(m);
    InsideTrim(m, a, b, i);
    MidKey(m, a, b, i);
  }

  lemma InsideTrim(m: string, a: nat, b: nat, i: nat)
    requires a <= b <= |m| && i < |m| && m[i] == '=' && Spaces(m, 0, a) && Spaces(m, b, |m|)
    ensures a <= i < b
  {
    assert !Space(m[i]);
  }

  lemma MidKey(m: string, a: nat, b: nat, i: nat)
    requires a <= i < b <= |m| && i == Equals(m) && Spaces(m, 0, a)
    ensures Equals(m[a..b]) == i - a && Trim(m[a..b][..i - a]) == Trim(m[..i])
  {
    var t, head := m[a..b], m[..i];
    assert t[..i - a] == head[a..];
    WithoutFrom('=', head, a);
    EqualsAt(t, i - a);
    SpacesPrefix(m, a, i);
    TrimLeftSkips(head, a);
  }

  lemma WithoutFrom(c: char, s: string, a: nat)
    requires Without(c, s) && a <= |s|
    ensures Without(c, s[a..])
  {
  }

  lemma SpacesPrefix(m: string, a: nat, i: nat)
    requires a <= i <= |m| && Spaces(m, 0, a)
    ensures Spaces(m[..i], 0, a)
  {
  }

  /** Reader and writer see the same key in every line that assigns anything. */
  lemma KeysAgree(line: string)
    requires Parse(line).Some?
    ensures KeyOf(line) == Some(Parse(line).value.key)
  {
    TrimKeepsKey(Unexport(Trim(line)));
  }

  // ----- a written line --------------------------------------------------------------------------------

  /** A key as the callers use it. */
  predicate KeyOk(key: string) {
    Tight(key) && Without('=', key) && Without('\n', key) && key[0] != '#' && !(EXPORT <= key)
  }

  function Assign(key: string, value: string): string {
    key + "=" + ShellQuote(value)
  }

  /** The bytes of a written assignment, from its key and value. */
  function AssignSize(key: string, value: string): nat {
    Size(key) + 3 + Size(value) + 4 * Quotes(value)
  }

  lemma AssignSizeIs(key: string, value: string)
    ensures Size(Assign(key, value)) == AssignSize(key, value)
  {
    EscapeSize(value);
    EscapeBytes();
    SizeOne('=');
    SizeAppend("'" + Escape(value), "'");
    SizeAppend("'", Escape(value));
    SizeAppend(key + "=", ShellQuote(value));
    SizeAppend(key, "=");
  }

  /** A written assignment reads back as exactly its key and value, whatever quotes the value holds. */
  lemma ParseAssign(key: string, value: string)
    requires KeyOk(key)
    ensures Parse(Assign(key, value)) == Some(Assignment(key, value))
  {
    UnquoteQuote(value);
    var q := ShellQuote(value);
    var line := Assign(key, value);
    assert Tight(line) by { assert line[0] == key[0] && line[|line| - 1] == q[|q| - 1]; }
    assert Trim(line) == line;
    assert !(EXPORT <= line) by { NoExport(key, value); }
    assert line[..|key|] == key && line[|key|] == '=' && line[|key| + 1..] == q;
    EqualsAt(line, |key|);
    assert Trim(key) == key && Trim(q) == q;
  }

  /** The same with `export` before it, */
  lemma ExportedReads(key: string, value: string)
    requires KeyOk(key)
    ensures Parse(EXPORT + Assign(key, value)) == Some(Assignment(key, value))
  {
    UnquoteQuote(value);
    var q, rest := ShellQuote(value), Assign(key, value);
    var line := EXPORT + rest;
    assert Tight(line) by { assert line[0] == 'e' && line[|line| - 1] == q[|q| - 1]; }
    assert Unexport(line) == rest;
    assert rest[..|key|] == key && rest[|key|] == '=' && rest[|key| + 1..] == q;
    EqualsAt(rest, |key|);
  }

  /** and a value between double quotes, or without any, is taken as it stands. */
  lemma OtherQuotes(v: string)
    ensures Unquote("\"" + v + "\"") == v
    ensures |v| < 2 || (v[0] != '\'' && v[0] != '"') ==> Unquote(v) == v
  {
    var q := "\"" + v + "\"";
    assert q[1..|q| - 1] == v;
  }

  /** The quoted part holds the first blank a key without one could meet. */
  lemma NoExport(key: string, value: string)
    requires KeyOk(key)
    ensures !(EXPORT <= Assign(key, value))
  {
    var line := Assign(key, value);
    assert line[|key|] == '=';
    assert |key| >= 7 ==> line[..7] == key[..7];
  }

  lemma AssignWithout(key: string, value: string)
    requires KeyOk(key) && Without('\n', value)
    ensures Without('\n', Assign(key, value))
  {
    EscapeWithout(value);
  }

  // ----- reading a file --------------------------------------------------------------------------------

  function Get(values: map<string, string>, key: string): string {
    if key in values then values[key] else ""
  }

  type Parser = string -> Option<Assignment>

  /** The value of the last line that assigns `key`, as `parse` reads lines. */
  function LastOf(parse: Parser, lines: seq<string>, key: string): Option<string> {
    if lines == [] then None
    else
      var a := parse(lines[|lines| - 1]);
      if a.Some? && a.value.key == key then Some(a.value.value) else LastOf(parse, lines[..|lines| - 1], key)
  }

  function Lookup(lines: seq<string>, key: string): Option<string> {
    LastOf(Parse, lines, key)
  }

  function Default(v: Option<string>): string {
    if v.Some? then v.value else ""
  }

  /** What a reader gets for `key`: the short old names stand in for empty agent tokens. */
  function ValueIn(lines: seq<string>, key: string): string {
    var own := Default(Lookup(lines, key));
    if own == "" && key == ACCESS then Default(Lookup(lines, OLD_ACCESS))
    else if own == "" && key == REFRESH then Default(Lookup(lines, OLD_REFRESH))
    else own
  }

  /** The map holds, for every key, what its last line says. */
  ghost predicate Holds(parse: Parser, lines: seq<string>, values: map<string, string>) {
    forall key :: Get(values, key) == Default(LastOf(parse, lines, key))
  }

  function With(values: map<string, string>, a: Option<Assignment>): map<string, string> {
    if a.Some? then values[a.value.key := a.value.value] else values
  }

  lemma HoldsNext(parse: Parser, lines: seq<string>, i: nat, values: map<string, string>)
    requires i < |lines| && Holds(parse, lines[..i], values)
    ensures Holds(parse, lines[..i + 1], With(values, parse(lines[i])))
  {
    forall key ensures Get(With(values, parse(lines[i])), key) == Default(LastOf(parse, lines[..i + 1], key)) {
      LastNext(parse, lines, i, key);
    }
  }

  /** Every line fits the scanner's buffer with its end. */
  predicate Scannable(lines: seq<string>) {
    forall i :: 0 <= i < |lines| ==> Size(lines[i]) < SCANNER_BYTES
  }

  /** The scanner loop: later lines override earlier ones, and a line that is too long fails. */
  method ReadLines(lines: seq<string>) returns (values: Option<map<string, string>>)
    ensures values.Some? <==> Scannable(lines)
    ensures values.Some? ==> Holds(Parse, lines, values.value)
  {
    var found: map<string, string> := map[];
    var i := 0;
    while i < |lines|
      invariant 0 <= i <= |lines| && Holds(Parse, lines[..i], found)
      invariant forall k :: 0 <= k < i ==> Size(lines[k]) < SCANNER_BYTES
    {
      if Size(lines[i]) >= SCANNER_BYTES { return None; }
      HoldsNext(Parse, lines, i, found);
      found := With(found, Parse(lines[i]));
      i := i + 1;
    }
    assert lines[..i] == lines;
    values := Some(found);
  }

  lemma LastNext(parse: Parser, lines: seq<string>, i: nat, key: string)
    requires i < |lines|
    ensures LastOf(parse, lines[..i + 1], key) ==
              var a := parse(lines[i]);
              if a.Some? && a.value.key == key then Some(a.value.value) else LastOf(parse, lines[..i], key)
  {
    assert lines[..i + 1][..i] == lines[..i];
  }

  predicate Readable(text: string) {
    Size(text) <= FILE_BYTES && Scannable(Lines(text))
  }

  /** What a reader gets for a key of a file that may be missing. */
  function ValueOf(text: Option<string>, key: string): string {
    if text.None? then "" else ValueIn(Lines(text.value), key)
  }

  function Renamed(values: map<string, string>, key: string, former: string): map<string, string> {
    if Get(values, key) == "" then values[key := Get(values, former)] else values
  }

  /** explicitEnvValues on the text of a file; a missing file has no values, one that is too large is an error. */
  method Read(text: Option<string>) returns (values: Option<map<string, string>>)
    ensures values.None? <==> text.Some? && !Readable(text.value)
    ensures values.Some? ==> forall key :: Get(values.value, key) == ValueOf(text, key)
  {
    if text.None? { return Some(map[]); }
    if Size(text.value) > FILE_BYTES { return None; }
    values := ReadLines(Lines(text.value));
    if values.None? { return; }
    Names();
    values := Some(Renamed(Renamed(values.value, ACCESS, OLD_ACCESS), REFRESH, OLD_REFRESH));
  }

  lemma Names()
    ensures ACCESS != REFRESH && OLD_ACCESS != OLD_REFRESH
    ensures {ACCESS, REFRESH} !! {OLD_ACCESS, OLD_REFRESH}
    ensures KeyOk(ACCESS) && KeyOk(REFRESH)
  {
    assert ACCESS[13] == 'A' && REFRESH[13] == 'R' && OLD_ACCESS[7] == 'A' && OLD_REFRESH[7] == 'R';
    assert |ACCESS| == 25 && |REFRESH| == 26 && |OLD_ACCESS| == 19 && |OLD_REFRESH| == 20;
    assert EXPORT[0] == 'e' && ACCESS[0] == 'C' && REFRESH[0] == 'C';
  }

  // ----- writing a file --------------------------------------------------------------------------------

  /** A line that the new credentials replace. */
  predicate Replaced(line: string, values: map<string, string>) {
    KeyOf(line).Some? &&
    var key := KeyOf(line).value;
    || key in values
    || (key == OLD_ACCESS && Get(values, ACCESS) != "")
    || (key == OLD_REFRESH && Get(values, REFRESH) != "")
  }

  function Keep<T>(drop: T -> bool, s: seq<T>): seq<T> {
    if s == [] then [] else Keep(drop, s[..|s| - 1]) + (if drop(s[|s| - 1]) then [] else [s[|s| - 1]])
  }

  function Retained(lines: seq<string>, values: map<string, string>): seq<string> {
    Keep((line: string) => Replaced(line, values), lines)
  }

  /** A line that neither reader nor writer takes for an assignment. */
  predicate Comment(line: string) {
    Tight(line) && line[0] == '#' && Without('\n', line)
  }

  lemma WithoutAppend(c: char, a: string, b: string)
    ensures Without(c, a + b) <==> Without(c, a) && Without(c, b)
  {
    if Without(c, a + b) {
      forall i | 0 <= i < |a| ensures a[i] != c { assert (a + b)[i] == a[i]; }
      forall i | 0 <= i < |b| ensures b[i] != c { assert (a + b)[|a| + i] == b[i]; }
    }
  }

  lemma BannerIsComment()
    ensures Comment(BANNER)
  {
    var a, b, c, d := "# Canter agent ", "credentials. ", "Treat this ", "file as a secret.";
    WithoutAppend('\n', a, b);
    WithoutAppend('\n', c, d);
    WithoutAppend('\n', a + b, c + d);
    assert BANNER[0] == a[0] && BANNER[|BANNER| - 1] == d[|d| - 1];
  }

  function Written(keys: seq<string>, values: map<string, string>): seq<string>
    requires forall k :: k in keys ==> k in values
  {
    if keys == [] then
        [] else Written(keys[..|keys| - 1], values) + [Assign(keys[|keys| - 1], values[keys[|keys| - 1]])]
  }

  /** The lines of a file as the writer splits them; an empty file has one empty line. */
  function OldLines(text: Option<string>): seq<string> {
    if text.None? then [] else if text.value == "" then [""] else Lines(text.value)
  }

  function NewLines(text: Option<string>, banner: string, keys: seq<string>, values: map<string, string>): seq<string>
    requires forall k :: k in keys ==> k in values
  {
    var kept := Retained(OldLines(text), values);
    kept + (if kept != [] && kept[|kept| - 1] != "" then [""] else []) + [banner] + Written(keys, values)
  }

  ghost predicate Lists(keys: seq<string>, values: map<string, string>) {
    NoDuplicates(keys) && forall k :: k in keys <==> k in values
  }

  method SortedKeys(values: map<string, string>) returns (keys: seq<string>)
    ensures Lists(keys, values) && Ordered(GraphIds.Before, keys)
  {
    keys := [];
    var rest := values.Keys;
    while rest != {}
      invariant rest <= values.Keys && NoDuplicates(keys)
      invariant forall k :: k in keys <==> k in values && k !in rest
    {
      var k :| k in rest;
      keys := keys + [k];
      rest := rest - {k};
    }
    KeysComparable(keys);
    SortOk(GraphIds.Before, keys);
    keys := Sort(GraphIds.Before, keys);
    OrderedDistinct(keys);
  }

  lemma KeysComparable(keys: seq<string>)
    requires NoDuplicates(keys)
    ensures Transitive(GraphIds.Before) && Comparable(GraphIds.Before, keys)
  {
    forall a, b, c | GraphIds.Before(a, b) && GraphIds.Before(b, c)
        ensures GraphIds.Before(a, c) { GraphIds.BeforeTransitive(a, b, c); }
    forall i, j | 0 <= i < j < |keys| ensures GraphIds.Before(keys[i], keys[j]) || GraphIds.Before(keys[j], keys[i]) {
      GraphIds.BeforeTotal(keys[i], keys[j]);
    }
  }

  lemma OrderedDistinct(keys: seq<string>)
    requires Ordered(GraphIds.Before, keys)
    ensures NoDuplicates(keys)
  {
    forall i, j | 0 <= i < j < |keys| ensures keys[i] != keys[j] { GraphIds.Irreflexive(keys[i]); }
  }

  method Retain(lines: seq<string>, values: map<string, string>) returns (retained: seq<string>)
    ensures retained == Retained(lines, values)
  {
    ghost var drop := (line: string) => Replaced(line, values);
    retained := [];
    var i := 0;
    while i < |lines|
      invariant 0 <= i <= |lines| && retained == Keep(drop, lines[..i])
    {
      KeepNext(drop, lines, i);
      if !Replaced(lines[i], values) { retained := retained + [lines[i]]; }
      i := i + 1;
    }
    assert lines[..i] == lines;
  }

  lemma KeepNext(drop: string -> bool, lines: seq<string>, i: nat)
    requires i < |lines|
    ensures Keep(drop, lines[..i + 1]) == if drop(lines[i]) then
              Keep(drop, lines[..i]) else Keep(drop, lines[..i]) + [lines[i]]
  {
    assert lines[..i + 1][..i] == lines[..i];
    assert Keep(drop, lines[..i]) + [] == Keep(drop, lines[..i]);
  }

  method Write(keys: seq<string>, values: map<string, string>) returns (lines: seq<string>)
    requires forall k :: k in keys ==> k in values
    ensures lines == Written(keys, values)
  {
    lines := [];
    var i := 0;
    while i < |keys|
      invariant 0 <= i <= |keys| && lines == Written(keys[..i], values)
    {
      assert keys[..i + 1][..i] == keys[..i];
      lines := lines + [Assign(keys[i], values[keys[i]])];
      i := i + 1;
    }
    assert keys[..i] == keys;
  }

  /** persistAgentEnv, from the old text of the file to the new one; an old file that is too large is an error. */
  method Persist(text: Option<string>, values: map<string, string>) returns (after: Option<string>)
    ensures after.None? <==> text.Some? && Size(text.value) > FILE_BYTES
    ensures after.Some? ==>
              exists keys :: Lists(keys, values) && Ordered(GraphIds.Before, keys)
                  && after.value == Flat(NewLines(text, BANNER, keys, values))
  {
    if text.Some? && Size(text.value) > FILE_BYTES { return None; }
    var lines := Retain(OldLines(text), values);
    ghost var kept := lines;
    if |lines| > 0 && lines[|lines| - 1] != "" { lines := lines + [""]; }
    assert kept + [] == kept;
    var sorted := SortedKeys(values);
    var written := Write(sorted, values);
    after := Some(Flat(lines + [BANNER] + written));
  }

  // ----- what reading finds after writing --------------------------------------------------------------

  lemma {:induction false} LastAppend(parse: Parser, a: seq<string>, b: seq<string>, key: string)
    ensures LastOf(parse, a + b, key) == if LastOf(parse, b, key).Some? then
              LastOf(parse, b, key) else LastOf(parse, a, key)
  {
    if b == [] {
      assert a + b == a;
    } else {
      LastAppend(parse, a, b[..|b| - 1], key);
      assert (a + b)[..|a + b| - 1] == a + b[..|b| - 1];
    }
  }

  lemma LastOne(parse: Parser, line: string, key: string)
    ensures LastOf(parse, [line], key) ==
              if parse(line).Some? && parse(line).value.key == key then Some(parse(line).value.value) else None
  {
    assert [line][..0] == [];
  }

  lemma {:induction false} LastWritten(parse: Parser, keys: seq<string>, values: map<string, string>, key: string)
    requires NoDuplicates(keys)
    requires forall k :: k in keys ==> k in values && parse(Assign(k, values[k])) == Some(Assignment(k, values[k]))
    ensures LastOf(parse, Written(keys, values), key) == if key in keys then Some(values[key]) else None
  {
    if keys != [] {
      var front, last := keys[..|keys| - 1], keys[|keys| - 1];
      assert keys == front + [last];
      LastWritten(parse, front, values, key);
      var line := Assign(last, values[last]);
      LastOne(parse, line, key);
      LastAppend(parse, Written(front, values), [line], key);
    }
  }

  lemma LookupWritten(keys: seq<string>, values: map<string, string>, key: string)
    requires NoDuplicates(keys) && (forall k :: k in keys ==> k in values && KeyOk(k))
    ensures Lookup(Written(keys, values), key) == if key in keys then Some(values[key]) else None
  {
    forall k | k in keys ensures Parse(Assign(k, values[k])) ==
        Some(Assignment(k, values[k])) { ParseAssign(k, values[k]); }
    LastWritten(Parse, keys, values, key);
  }

  /** The key is one whose lines the writer removes. */
  predicate Managed(key: string, values: map<string, string>) {
    || key in values
    || (key == OLD_ACCESS && Get(values, ACCESS) != "")
    || (key == OLD_REFRESH && Get(values, REFRESH) != "")
  }

  /** Dropping lines either drops every assignment of a key or none of them. */
  lemma {:induction false} LastKept(parse: Parser, drop: string -> bool, lines: seq<string>, key: string, gone: bool)
    requires forall l :: l in lines && parse(l).Some? && parse(l).value.key == key ==> drop(l) == gone
    ensures LastOf(parse, Keep(drop, lines), key) == if gone then None else LastOf(parse, lines, key)
  {
    if lines != [] {
      var front, last := lines[..|lines| - 1], lines[|lines| - 1];
      assert last in lines && forall l :: l in front ==> l in lines;
      LastKept(parse, drop, front, key, gone);
      var kept := Keep(drop, front);
      LastOne(parse, last, key);
      LastAppend(parse, kept, [last], key);
      assert Keep(drop, lines) == if drop(last) then kept + [] else kept + [last];
      assert kept + [] == kept;
    }
  }

  lemma LookupRetained(lines: seq<string>, values: map<string, string>, key: string)
    ensures Lookup(Retained(lines, values), key) == if Managed(key, values) then None else Lookup(lines, key)
  {
    var drop := (line: string) => Replaced(line, values);
    forall l | l in lines && Parse(l).Some? && Parse(l).value.key == key ensures drop(l) == Managed(key, values) {
      KeysAgree(l);
    }
    LastKept(Parse, drop, lines, key, Managed(key, values));
  }

  lemma SilentLines(banner: string, key: string)
    requires Comment(banner)
    ensures Lookup([""], key) == None && Lookup([banner], key) == None && Lookup([], key) == None
  {
    LastOne(Parse, "", key);
    LastOne(Parse, banner, key);
    assert Trim(banner) == banner;
  }

  /** Every key of the new file: the written value, else what the old file says. */
  lemma LookupNew(text: Option<string>, banner: string, keys: seq<string>, values: map<string, string>, key: string)
    requires Comment(banner) && Lists(keys, values) && forall k :: k in values ==> KeyOk(k)
    ensures Lookup(NewLines(text, banner, keys, values), key) ==
              if key in values then Some(values[key]) else
                  if Managed(key, values) then None else Lookup(OldLines(text), key)
  {
    var kept := Retained(OldLines(text), values);
    var gap := if kept != [] && kept[|kept| - 1] != "" then [""] else [];
    SilentLines(banner, key);
    LookupWritten(keys, values, key);
    LookupRetained(OldLines(text), values, key);
    LastAppend(Parse, kept, gap, key);
    LastAppend(Parse, kept + gap, [banner], key);
    LastAppend(Parse, kept + gap + [banner], Written(keys, values), key);
  }

  lemma NewLinesAreLines(text: Option<string>, banner: string, keys: seq<string>, values: map<string, string>)
    requires Comment(banner) && Lists(keys, values) && forall k :: k in values ==> KeyOk(k) && Without('\n', values[k])
    ensures Lines(Flat(NewLines(text, banner, keys, values))) == NewLines(text, banner, keys, values)
  {
    if text.Some? { LinesAreLines(text.value); }
    KeptPart((line: string) => Replaced(line, values), OldLines(text));
    WrittenPlain(keys, values);
    LinesFlat(NewLines(text, banner, keys, values));
  }

  lemma {:induction false} KeptPart(drop: string -> bool, lines: seq<string>)
    requires forall i :: 0 <= i < |lines| ==> Without('\n', lines[i])
    ensures forall i :: 0 <= i < |Keep(drop, lines)| ==> Without('\n', Keep(drop, lines)[i])
  {
    if lines != [] { KeptPart(drop, lines[..|lines| - 1]); }
  }

  lemma {:induction false} WrittenPlain(keys: seq<string>, values: map<string, string>)
    requires forall k :: k in keys ==> k in values && KeyOk(k) && Without('\n', values[k])
    ensures forall i :: 0 <= i < |Written(keys, values)| ==> Without('\n', Written(keys, values)[i])
  {
    if keys != [] {
      var last := keys[|keys| - 1];
      WrittenPlain(keys[..|keys| - 1], values);
      AssignWithout(last, values[last]);
    }
  }

  /** The old short name that stands in for an agent token. */
  function OldName(key: string): Option<string> {
    if key == ACCESS then Some(OLD_ACCESS) else if key == REFRESH then Some(OLD_REFRESH) else None
  }

  /** An empty agent token is written while the old name still has a value, in the file or among the new values. */
  predicate Shadowed(text: Option<string>, values: map<string, string>, key: string) {
    && OldName(key).Some? && Get(values, key) == ""
    && (if OldName(key).value in values then values[OldName(key).value] != ""
        else Default(Lookup(OldLines(text), OldName(key).value)) != "")
  }

  ghost predicate ValuesOk(values: map<string, string>) {
    forall k :: k in values ==> KeyOk(k) && Without('\n', values[k])
  }

  // ----- how large the new file is -----------------------------------------------------------------------

  function WrittenBulk(keys: seq<string>, values: map<string, string>): nat
    requires forall k :: k in keys ==> k in values
  {
    if keys == [] then 0
    else WrittenBulk(keys[..|keys| - 1], values) + AssignSize(keys[|keys| - 1], values[keys[|keys| - 1]]) + 1
  }

  /**
   What a caller can find out before writing: every new assignment and every line
   that stays fits the scanner, and the whole fits the limit on the file.
   */
  predicate Roomy(text: Option<string>, banner: string, keys: seq<string>, values: map<string, string>)
    requires forall k :: k in keys ==> k in values
  {
    var kept := Retained(OldLines(text), values);
    && (forall k :: k in keys ==> AssignSize(k, values[k]) < SCANNER_BYTES)
    && Scannable(kept) && Size(banner) < SCANNER_BYTES
    && Bulk(kept) + (if kept != [] && kept[|kept| - 1] != "" then 1 else 0) + Size(banner) + 1 + WrittenBulk(keys,
        values) <= FILE_BYTES
  }

  lemma {:induction false} WrittenSize(keys: seq<string>, values: map<string, string>)
    requires forall k :: k in keys ==> k in values
    ensures Bulk(Written(keys, values)) == WrittenBulk(keys, values)
    ensures Scannable(Written(keys, values)) <==> forall k :: k in keys ==> AssignSize(k, values[k]) < SCANNER_BYTES
  {
    if keys != [] {
      var front, last := keys[..|keys| - 1], keys[|keys| - 1];
      assert keys == front + [last];
      WrittenSize(front, values);
      AssignSizeIs(last, values[last]);
      ScannableAppend(Written(front, values), [Assign(last, values[last])]);
    }
  }

  lemma ScannableAppend(a: seq<string>, b: seq<string>)
    ensures Scannable(a + b) <==> Scannable(a) && Scannable(b)
  {
    if Scannable(a + b) {
      forall i | 0 <= i < |a| ensures Size(a[i]) < SCANNER_BYTES { assert (a + b)[i] == a[i]; }
      forall i | 0 <= i < |b| ensures Size(b[i]) < SCANNER_BYTES { assert (a + b)[|a| + i] == b[i]; }
    }
  }

  lemma NewBulk(text: Option<string>, banner: string, keys: seq<string>, values: map<string, string>)
    requires Lists(keys, values)
    ensures var kept := Retained(OldLines(text), values);
            Bulk(NewLines(text, banner, keys, values)) ==
              Bulk(kept) + (if kept != [] && kept[|kept| - 1] != "" then
                  1 else 0) + Size(banner) + 1 + WrittenBulk(keys, values)
  {
    var kept := Retained(OldLines(text), values);
    var gap := if kept != [] && kept[|kept| - 1] != "" then [""] else [];
    WrittenSize(keys, values);
    BulkOne("");
    BulkOne(banner);
    BulkAppend(kept, gap);
    BulkAppend(kept + gap, [banner]);
    BulkAppend(kept + gap + [banner], Written(keys, values));
  }

  lemma ScannableParts(kept: seq<string>, gap: seq<string>, banner: string, written: seq<string>)
    requires gap == [] || gap == [""]
    ensures Scannable(kept + gap + [banner] + written) <==>
              Scannable(kept) && Size(banner) < SCANNER_BYTES && Scannable(written)
  {
    ScannableAppend(kept, gap);
    ScannableAppend(kept + gap, [banner]);
    ScannableAppend(kept + gap + [banner], written);
    assert Scannable(gap);
    assert Scannable([banner]) <==> Size([banner][0]) < SCANNER_BYTES;
  }

  lemma NewScannable(text: Option<string>, banner: string, keys: seq<string>, values: map<string, string>)
    requires Lists(keys, values)
    ensures Scannable(NewLines(text, banner, keys, values)) <==>
              && Scannable(Retained(OldLines(text), values)) && Size(banner) < SCANNER_BYTES
              && forall k :: k in keys ==> AssignSize(k, values[k]) < SCANNER_BYTES
  {
    var kept := Retained(OldLines(text), values);
    var gap := if kept != [] && kept[|kept| - 1] != "" then [""] else [];
    WrittenSize(keys, values);
    ScannableParts(kept, gap, banner, Written(keys, values));
  }

  /** The new file can be read exactly if there is room for it. */
  lemma ReadableIff(text: Option<string>, banner: string, keys: seq<string>, values: map<string, string>)
    requires Comment(banner) && Lists(keys, values) && ValuesOk(values)
    ensures Readable(Flat(NewLines(text, banner, keys, values))) <==> Roomy(text, banner, keys, values)
  {
    NewLinesAreLines(text, banner, keys, values);
    FlatSize(NewLines(text, banner, keys, values));
    NewBulk(text, banner, keys, values);
    NewScannable(text, banner, keys, values);
  }

  // ----- the round trip ----------------------------------------------------------------------------------

  /** Reading the text succeeds and gives this value. */
  predicate Returns(text: string, key: string, value: string) {
    Readable(text) && ValueOf(Some(text), key) == value
  }

  lemma ReturnsIff(text: Option<string>, banner: string, keys: seq<string>, values: map<string, string>, key: string,
                   value: string)
    requires Comment(banner) && Lists(keys, values) && ValuesOk(values)
    ensures Returns(Flat(NewLines(text, banner, keys, values)), key, value) <==>
              Roomy(text, banner, keys, values) && ValueIn(NewLines(text, banner, keys, values), key) == value
  {
    NewLinesAreLines(text, banner, keys, values);
    ReadableIff(text, banner, keys, values);
  }

  lemma WrittenValue(text: Option<string>, banner: string, keys: seq<string>, values: map<string, string>, key: string)
    requires Comment(banner) && Lists(keys, values) && ValuesOk(values) && key in values
    ensures ValueIn(NewLines(text, banner, keys, values), key) == values[key] <==> !Shadowed(text, values, key)
  {
    Names();
    LookupNew(text, banner, keys, values, key);
    if key == ACCESS {
      LookupNew(text, banner, keys, values, OLD_ACCESS);
    } else if key == REFRESH {
      LookupNew(text, banner, keys, values, OLD_REFRESH);
    }
  }

  lemma OtherValue(text: Option<string>, banner: string, keys: seq<string>, values: map<string, string>, key: string)
    requires Comment(banner) && Lists(keys, values) && ValuesOk(values) && key !in values
    ensures ValueIn(NewLines(text, banner, keys, values), key) == ValueIn(OldLines(text), key) <==>
              Undisturbed(text, values, key)
  {
    Names();
    LookupNew(text, banner, keys, values, key);
    if key == ACCESS {
      LookupNew(text, banner, keys, values, OLD_ACCESS);
    } else if key == REFRESH {
      LookupNew(text, banner, keys, values, OLD_REFRESH);
    }
  }

  lemma OldValue(text: Option<string>, key: string)
    ensures ValueIn(OldLines(text), key) == ValueOf(text, key)
  {
    BannerIsComment();
    SilentLines(BANNER, key);
    SilentLines(BANNER, OLD_ACCESS);
    SilentLines(BANNER, OLD_REFRESH);
  }

  /**
   Reading after writing returns exactly the written value of a managed key, for
   every newline-free value with any quotes, if and only if there is room for the new
   lines and the key is not an empty agent token whose old short name still has a value.
   */
  lemma ReadAfterPersist(text: Option<string>, banner: string, keys: seq<string>, values: map<string, string>,
                         key: string)
    requires Comment(banner) && Lists(keys, values) && ValuesOk(values) && key in values
    ensures Returns(Flat(NewLines(text, banner, keys, values)), key, values[key]) <==>
              Roomy(text, banner, keys, values) && !Shadowed(text, values, key)
  {
    ReturnsIff(text, banner, keys, values, key, values[key]);
    WrittenValue(text, banner, keys, values, key);
  }

  /**
   A key that is not written loses its value only as the old name of a token that is,
   and a token that is not written changes only if it is read from its old name and
   that name is written.
   */
  predicate Undisturbed(text: Option<string>, values: map<string, string>, key: string) {
    if OldName(key).Some? then
      var former := OldName(key).value;
      Default(Lookup(OldLines(text), key)) != "" || former !in values
          || values[former] == Default(Lookup(OldLines(text), former))
    else Managed(key, values) ==> Default(Lookup(OldLines(text), key)) == ""
  }

  /** Every key that is not written reads as it did before, exactly if it is undisturbed and there is room. */
  lemma OthersUntouched(text: Option<string>, banner: string, keys: seq<string>, values: map<string, string>,
                        key: string)
    requires Comment(banner) && Lists(keys, values) && ValuesOk(values) && key !in values
    ensures Returns(Flat(NewLines(text, banner, keys, values)), key, ValueOf(text, key)) <==>
              Roomy(text, banner, keys, values) && Undisturbed(text, values, key)
  {
    OldValue(text, key);
    ReturnsIff(text, banner, keys, values, key, ValueOf(text, key));
    OtherValue(text, banner, keys, values, key);
  }

  /** Writing a file and reading it back, whatever was in it before. */
  method PersistAndRead(text: Option<string>, values: map<string, string>)
    returns (after: Option<string>, back: Option<map<string, string>>)
    requires ValuesOk(values)
    ensures after.None? <==> text.Some? && Size(text.value) > FILE_BYTES
    ensures after.Some? ==>
              exists keys :: Lists(keys, values) && Ordered(GraphIds.Before, keys)
                  && (back.Some? <==> Roomy(text, BANNER, keys, values))
    ensures after.Some? && back.Some? ==>
              && (forall key :: key in values ==>
                  (Get(back.value, key) == values[key] <==> !Shadowed(text, values, key)))
              && (forall key :: key !in values ==>
                  (Get(back.value, key) == ValueOf(text, key) <==> Undisturbed(text, values, key)))
  {
    BannerIsComment();
    back := None;
    after := Persist(text, values);
    if after.None? { return; }
    back := Read(after);
    ghost var keys :| Lists(keys, values) && Ordered(GraphIds.Before, keys)
        && after.value == Flat(NewLines(text, BANNER, keys, values));
    ReadableIff(text, BANNER, keys, values);
    forall key | key in values ensures back.Some? ==>
        (Get(back.value, key) == values[key] <==> !Shadowed(text, values, key)) {
      ReadAfterPersist(text, BANNER, keys, values, key);
    }
    forall key | key !in values ensures back.Some? ==>
        (Get(back.value, key) == ValueOf(text, key) <==> Undisturbed(text, values, key)) {
      OthersUntouched(text, BANNER, keys, values, key);
    }
  }

  // ----- where it fails ------------------------------------------------------------------------------------

  lemma OldNameOk()
    ensures KeyOk(OLD_ACCESS)
  {
    assert OLD_ACCESS[0] == 'C' && EXPORT[0] == 'e' && OLD_ACCESS[|OLD_ACCESS| - 1] == 'N';
  }

  /** A file with one line that assigns one key. */
  lemma OneLine(key: string, value: string)
    requires KeyOk(key) && Without('\n', value)
    ensures Lookup(OldLines(Some(Flat([Assign(key, value)]))), key) == Some(value)
  {
    var line := Assign(key, value);
    ParseAssign(key, value);
    AssignWithout(key, value);
    LinesFlat([line]);
    LastOne(Parse, line, key);
    assert Flat([line]) == line + "\n" + Flat([]);
  }

  /** The shadowed case does occur, with any old token: an emptied access token is not read back. */
  lemma EmptyTokenComesBack(secret: string)
    requires Without('\n', secret) && secret != ""
    ensures var text := Some(Flat([Assign(OLD_ACCESS, secret)]));
            Lists([ACCESS], map[ACCESS := ""])
                && !Returns(Flat(NewLines(text, BANNER, [ACCESS], map[ACCESS := ""])), ACCESS, "")
  {
    Names();
    BannerIsComment();
    OldNameOk();
    OneLine(OLD_ACCESS, secret);
    var text := Some(Flat([Assign(OLD_ACCESS, secret)]));
    assert Shadowed(text, map[ACCESS := ""], ACCESS);
    ReadAfterPersist(text, BANNER, [ACCESS], map[ACCESS := ""], ACCESS);
  }

  function Repeated(n: nat): string {
    if n == 0 then "" else "'" + Repeated(n - 1)
  }

  lemma {:induction false} RepeatedSize(n: nat)
    ensures Size(Repeated(n)) == Quotes(Repeated(n)) == n && Without('\n', Repeated(n))
  {
    if n > 0 {
      RepeatedSize(n - 1);
      assert Repeated(n)[1..] == Repeated(n - 1);
    }
  }

  lemma LongLine(v: string)
    requires AssignSize(ACCESS, v) >= SCANNER_BYTES && Without('\n', v)
    ensures Lists([ACCESS], map[ACCESS := v]) && !Readable(Flat(NewLines(None, BANNER, [ACCESS], map[ACCESS := v])))
  {
    Names();
    BannerIsComment();
    assert ACCESS in [ACCESS];
    ReadableIff(None, BANNER, [ACCESS], map[ACCESS := v]);
  }

  /** So does the other: a token of 13200 quotes is written to a fresh file, which then cannot be read at all. */
  lemma LongValueIsLost()
    ensures var v := Repeated(13200);
            Lists([ACCESS], map[ACCESS := v]) && !Readable(Flat(NewLines(None, BANNER, [ACCESS], map[ACCESS := v])))
  {
    var v := Repeated(13200);
    RepeatedSize(13200);
    LongLine(v);
  }
}
