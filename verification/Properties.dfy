/** The `server.properties` text: its reader and its editor. */
module Properties {
  // The reader takes the text for a table; the editor changes values in place and leaves everything else
  // where it is.

  import opened Wrappers

  // ---------- Strings ----------

  /** White space and line terminators, as String.prototype.trim removes them. */
  predicate IsSpace(c: char) {
    || '\t' <= c <= '\r' || c == ' ' || c == '\U{A0}' || c == '\U{1680}' || '\U{2000}' <= c <= '\U{200A}'
    || c == '\U{2028}' || c == '\U{2029}' || c == '\U{202F}' || c == '\U{205F}' || c == '\U{3000}' || c == '\U{FEFF}'
  }

  function TrimStart(s: string): string {
    if s != "" && IsSpace(s[0]) then TrimStart(s[1..]) else s
  }

  function TrimEnd(s: string): string {
    if s != "" && IsSpace(s[|s| - 1]) then TrimEnd(s[..|s| - 1]) else s
  }

  function Trim(s: string): string {
    TrimStart(TrimEnd(s))
  }

  /** The first index of `c`, or the length. */
  function IndexOf(s: string, c: char): (i: nat)
    ensures i <= |s| && c !in s[..i] && (i < |s| ==> s[i] == c)
  {
    if s == "" || s[0] == c then 0 else
      var i := 1 + IndexOf(s[1..], c);
      assert s[..i] == [s[0]] + s[1..][..i - 1];
      i
  }

  /** A line without the carriage return that belongs to its line break. */
  function Chomp(s: string): string {
    if s != "" && s[|s| - 1] == '\r' then s[..|s| - 1] else s
  }

  /** split(/\r?\n/) */
  function Split(text: string): (lines: seq<string>)
    ensures |lines| >= 1 && forall i :: 0 <= i < |lines| ==> '\n' !in lines[i]
    decreases |text|
  {
    var n := IndexOf(text, '\n');
    if n == |text| then
      assert text[..n] == text;
      [text]
    else [Chomp(text[..n])] + Split(text[n + 1..])
  }

  /** join("\n") */
  function Join(lines: seq<string>): string
    requires lines != []
  {
    if |lines| == 1 then lines[0] else lines[0] + "\n" + Join(lines[1..])
  }

  // ---------- Reading ----------

  predicate IsComment(trimmed: string) {
    trimmed == "" || trimmed[0] == '#' || trimmed[0] == '!'
  }

  /** The key and value of a line, if it has them. */
  function Entry(line: string): Option<(string, string)> {
    var trimmed := Trim(line);
    if IsComment(trimmed) then None
    else
      var eq := IndexOf(trimmed, '=');
      if eq == |trimmed| then None else Some((Trim(trimmed[..eq]), Trim(trimmed[eq + 1..])))
  }

  type Row = Option<(string, string)>

  function Rows(lines: seq<string>): (rows: seq<Row>)
    ensures |rows| == |lines|
  {
    seq(|lines|, i requires 0 <= i < |lines| => Entry(lines[i]))
  }

  predicate Keyed(row: Row, key: string) {
    row.Some? && row.value.0 == key
  }

  predicate Occurs(rows: seq<Row>, key: string, k: nat)
    requires k <= |rows|
  {
    exists i :: 0 <= i < k && Keyed(rows[i], key)
  }

  /** The last of the first `k` rows with this key. */
  function LastKeyed(rows: seq<Row>, key: string, k: nat): (r: Option<nat>)
    requires k <= |rows|
    ensures r.Some? <==> Occurs(rows, key, k)
    ensures r.Some? ==> r.value < k && Keyed(rows[r.value], key) && forall j :: r.value < j < k ==> !Keyed(rows[j], key)
  {
    if k == 0 then None else if Keyed(rows[k - 1], key) then Some(k - 1) else LastKeyed(rows, key, k - 1)
  }

  /** The value that the first `k` rows give a key: the last of them counts. */
  function Lookup(rows: seq<Row>, key: string, k: nat): Option<string>
    requires k <= |rows|
  {
    var last := LastKeyed(rows, key, k);
    if last.Some? then Some(rows[last.value].value.1) else None
  }

  function Value(text: string, key: string): Option<string> {
    var rows := Rows(Split(text));
    Lookup(rows, key, |rows|)
  }

  ghost predicate Agrees(out: map<string, string>, rows: seq<Row>, k: nat)
    requires k <= |rows|
  {
    forall key: string :: Lookup(rows, key, k) == if key in out then Some(out[key]) else None
  }

  /** The first `k` rows, entered one after the other. */
  function Table(rows: seq<Row>, k: nat): map<string, string>
    requires k <= |rows|
  {
    if k == 0 then map[]
    else if rows[k - 1].Some? then Table(rows, k - 1)[rows[k - 1].value.0 := rows[k - 1].value.1]
    else Table(rows, k - 1)
  }

  lemma {:induction false} TableAgrees(rows: seq<Row>, k: nat)
    requires k <= |rows|
    ensures Agrees(Table(rows, k), rows, k)
  {
    if k != 0 {
      TableAgrees(rows, k - 1);
    }
  }

  /** One turn of the loop: a line without a key and a value leaves the table as it is. */
  method EnterLine(line: string, table: map<string, string>) returns (out: map<string, string>)
    ensures out == var row := Entry(line); if row.Some? then table[row.value.0 := row.value.1] else table
  {
    var trimmed := Trim(line);
    if IsComment(trimmed) {
      return table;
    }
    var eq := IndexOf(trimmed, '=');
    if eq == |trimmed| {
      return table;
    }
    out := table[Trim(trimmed[..eq]) := Trim(trimmed[eq + 1..])];
  }

  lemma TableNext(lines: seq<string>, k: nat, table: map<string, string>, row: Row)
    requires k < |lines| && table == Table(Rows(lines), k) && row == Entry(lines[k])
    ensures Table(Rows(lines), k + 1) == if row.Some? then table[row.value.0 := row.value.1] else table
  {
  }

  method EnterLines(lines: seq<string>) returns (out: map<string, string>)
    ensures out == Table(Rows(lines), |lines|)
  {
    out := map[];
    for i := 0 to |lines|
      invariant out == Table(Rows(lines), i)
    {
      TableNext(lines, i, out, Entry(lines[i]));
      out := EnterLine(lines[i], out);
    }
  }

  /** The table agrees with the text on every key. */
  method ParseProperties(text: string) returns (out: map<string, string>)
    ensures forall key: string :: Value(text, key) == if key in out then Some(out[key]) else None
  {
    var lines := Split(text);
    out := EnterLines(lines);
    TableAgrees(Rows(lines), |lines|);
  }

  // ---------- Editing ----------

  /** The entries of an object: no key twice. */
  type Changes = seq<(string, string)>

  predicate Distinct(changes: Changes) {
    forall i, j :: 0 <= i < j < |changes| ==> changes[i].0 != changes[j].0
  }

  predicate Has(changes: Changes, key: string) {
    exists i :: 0 <= i < |changes| && changes[i].0 == key
  }

  function Position(changes: Changes, key: string): (i: nat)
    requires Has(changes, key)
    ensures i < |changes| && changes[i].0 == key && forall j :: 0 <= j < i ==> changes[j].0 != key
  {
    if changes[0].0 == key then 0 else
      assert Has(changes[1..], key) by {
        var i :| 0 <= i < |changes| && changes[i].0 == key;
        assert changes[1..][i - 1] == changes[i];
      }
      1 + Position(changes[1..], key)
  }

  function Get(changes: Changes, key: string): string
    requires Has(changes, key)
  {
    changes[Position(changes, key)].1
  }

  function Line(key: string, value: string): string {
    key + "=" + value
  }

  function Delete(changes: Changes, key: string): (r: Changes)
    ensures forall x :: x in r <==> x in changes && x.0 != key
  {
    if changes == [] then [] else
      (if changes[0].0 == key then [] else [changes[0]]) + Delete(changes[1..], key)
  }

  /** What is left of the changes after `k` lines: a line takes the change for its key. */
  function Remaining(rows: seq<Row>, changes: Changes, k: nat): (r: Changes)
    requires k <= |rows|
    ensures forall x :: x in r <==> x in changes && !Occurs(rows, x.0, k)
  {
    if k == 0 then changes
    else if rows[k - 1].Some? then Delete(Remaining(rows, changes, k - 1), rows[k - 1].value.0)
    else Remaining(rows, changes, k - 1)
  }

  /** A line gets the new value if it is the first with a key that changes. */
  function EditedLine(lines: seq<string>, changes: Changes, i: nat): string
    requires i < |lines|
  {
    var entry := Entry(lines[i]);
    if entry.Some? && Has(changes, entry.value.0) && !Occurs(Rows(lines), entry.value.0, i)
    then Line(entry.value.0, Get(changes, entry.value.0)) else lines[i]
  }

  /** Edited lines in place, and then a line for every change that none of them took. */
  function Apply(lines: seq<string>, changes: Changes): seq<string> {
    EditedLines(lines, changes) + Added(Remaining(Rows(lines), changes, |lines|))
  }

  function EditedLines(lines: seq<string>, changes: Changes): (r: seq<string>)
    ensures |r| == |lines|
  {
    seq(|lines|, i requires 0 <= i < |lines| => EditedLine(lines, changes, i))
  }

  function Added(changes: Changes): (r: seq<string>)
    ensures |r| == |changes|
  {
    seq(|changes|, i requires 0 <= i < |changes| => Line(changes[i].0, changes[i].1))
  }

  /** What remains has the keys that no row had yet, with the values asked for. */
  lemma RemainingValues(rows: seq<Row>, changes: Changes, k: nat, key: string)
    requires k <= |rows| && Distinct(changes)
    ensures var rest := Remaining(rows, changes, k);
      && (Has(rest, key) <==> Has(changes, key) && !Occurs(rows, key, k))
      && (Has(rest, key) ==> Get(rest, key) == Get(changes, key))
  {
    var rest := Remaining(rows, changes, k);
    if Has(changes, key) && !Occurs(rows, key, k) {
      assert changes[Position(changes, key)] in rest;
    }
    if Has(rest, key) {
      assert rest[Position(rest, key)] in rest;
      var i :| 0 <= i < |changes| && changes[i] == rest[Position(rest, key)];
    }
  }

  /** The editor's function on one line. */
  method EditLine(line: string, remaining: Changes) returns (out: string, rest: Changes)
    ensures var entry := Entry(line);
      if entry.Some? && Has(remaining, entry.value.0)
      then out == Line(entry.value.0, Get(remaining, entry.value.0)) && rest == Delete(remaining, entry.value.0)
      else out == line && rest == remaining
  {
    var trimmed := Trim(line);
    if IsComment(trimmed) {
      return line, remaining;
    }
    var eq := IndexOf(trimmed, '=');
    if eq == |trimmed| {
      return line, remaining;
    }
    var key := Trim(trimmed[..eq]);
    if !Has(remaining, key) {
      return line, remaining;
    }
    out, rest := Line(key, Get(remaining, key)), Delete(remaining, key);
  }

  lemma {:induction false} DeleteMissing(changes: Changes, key: string)
    requires !Has(changes, key)
    ensures Delete(changes, key) == changes
  {
    if changes != [] {
      assert forall i :: 0 <= i < |changes| - 1 ==> changes[1..][i] == changes[i + 1];
      DeleteMissing(changes[1..], key);
    }
  }

  lemma NextLine(lines: seq<string>, changes: Changes, k: nat, out: string, rest: Changes)
    requires k < |lines| && Distinct(changes)
    requires var entry, remaining := Entry(lines[k]), Remaining(Rows(lines), changes, k);
      if entry.Some? && Has(remaining, entry.value.0)
      then out == Line(entry.value.0, Get(remaining, entry.value.0)) && rest == Delete(remaining, entry.value.0)
      else out == lines[k] && rest == remaining
    ensures out == EditedLine(lines, changes, k) && rest == Remaining(Rows(lines), changes, k + 1)
  {
    var entry, remaining := Rows(lines)[k], Remaining(Rows(lines), changes, k);
    if entry.Some? {
      RemainingValues(Rows(lines), changes, k, entry.value.0);
      if !Has(remaining, entry.value.0) {
        DeleteMissing(remaining, entry.value.0);
      }
    }
  }

  method EditOne(lines: seq<string>, changes: Changes, i: nat, remaining: Changes) returns (line: string, rest: Changes)
    requires Distinct(changes) && i < |lines| && remaining == Remaining(Rows(lines), changes, i)
    ensures line == EditedLines(lines, changes)[i] && rest == Remaining(Rows(lines), changes, i + 1)
  {
    line, rest := EditLine(lines[i], remaining);
    NextLine(lines, changes, i, line, rest);
  }

  lemma NextTaken(edited: seq<string>, i: nat, line: string)
    requires i < |edited| && line == edited[i]
    ensures edited[..i + 1] == edited[..i] + [line]
  {
  }

  method EditLines(lines: seq<string>, changes: Changes) returns (out: seq<string>, remaining: Changes)
    requires Distinct(changes)
    ensures out == EditedLines(lines, changes) && remaining == Remaining(Rows(lines), changes, |lines|)
  {
    out, remaining := [], changes;
    ghost var edited := EditedLines(lines, changes);
    for i := 0 to |lines|
      invariant |out| == i && remaining == Remaining(Rows(lines), changes, i)
      invariant out == edited[..i]
    {
      var line;
      line, remaining := EditOne(lines, changes, i, remaining);
      NextTaken(edited, i, line);
      out := out + [line];
    }
    assert edited[..|lines|] == edited;
  }

  /** The text, edited in place. */
  method ApplyProperties(original: string, changes: Changes) returns (text: string)
    requires Distinct(changes)
    ensures text == Join(Apply(Split(original), changes))
  {
    var lines, remaining := EditLines(Split(original), changes);
    ghost var edited := lines;
    for k := 0 to |remaining|
      invariant lines == edited + Added(remaining)[..k]
    {
      lines := lines + [Line(remaining[k].0, remaining[k].1)];
    }
    assert Added(remaining)[..|remaining|] == Added(remaining);
    text := Join(lines);
  }
}
