/** The reader and the editor of `server.properties` against each other, on every text. */
module PropertyLaws {
  import opened Wrappers
  import opened Properties

  // ---------- Splitting and joining ----------

  /** Lines as they come back from a text: all but the last lose a carriage return at their end. */
  function Chomped(lines: seq<string>): (r: seq<string>)
    ensures |r| == |lines|
  {
    seq(|lines|, i requires 0 <= i < |lines| => if i < |lines| - 1 then Chomp(lines[i]) else lines[i])
  }

  lemma IndexIs(s: string, c: char, i: nat)
    requires i < |s| && s[i] == c && c !in s[..i]
    ensures IndexOf(s, c) == i
  {
  }

  lemma SplitLine(first: string, rest: string)
    requires '\n' !in first
    ensures Split(first + "\n" + rest) == [Chomp(first)] + Split(rest)
  {
    var text := first + "\n" + rest;
    assert text[..|first|] == first && text[|first| + 1..] == rest;
    IndexIs(text, '\n', |first|);
  }

  lemma ChompedNext(lines: seq<string>)
    requires |lines| > 1
    ensures Chomped(lines) == [Chomp(lines[0])] + Chomped(lines[1..])
  {
  }

  lemma {:induction false} SplitJoin(lines: seq<string>)
    requires lines != [] && forall i :: 0 <= i < |lines| ==> '\n' !in lines[i]
    ensures Split(Join(lines)) == Chomped(lines)
  {
    if |lines| == 1 {
      assert IndexOf(lines[0], '\n') == |lines[0]|;
    } else {
      SplitLine(lines[0], Join(lines[1..]));
      SplitJoin(lines[1..]);
      ChompedNext(lines);
    }
  }

  lemma RowsOfChomped(lines: seq<string>)
    ensures Rows(Chomped(lines)) == Rows(lines)
  {
    forall i | 0 <= i < |lines| ensures Rows(Chomped(lines))[i] == Rows(lines)[i] {
      assert Trim(Chomp(lines[i])) == Trim(lines[i]);
    }
  }

  // ---------- A line that was written reads back ----------

  /** A key that a line can start with. */
  predicate WellFormed(key: string) {
    && '=' !in key && '\n' !in key
    && (key != "" ==> !IsSpace(key[0]) && !IsSpace(key[|key| - 1]) && key[0] != '#' && key[0] != '!')
  }

  ghost predicate WellFormedChanges(changes: Changes) {
    && Distinct(changes)
    && forall i :: 0 <= i < |changes| ==> WellFormed(changes[i].0) && '\n' !in changes[i].1
  }

  lemma {:induction false} TrimEndAfter(a: string, b: string)
    requires a != "" && !IsSpace(a[|a| - 1])
    ensures TrimEnd(a + b) == a + TrimEnd(b)
  {
    if b == "" {
      assert a + b == a;
    } else if IsSpace(b[|b| - 1]) {
      TrimEndAfter(a, b[..|b| - 1]);
      assert (a + b)[..|a + b| - 1] == a + b[..|b| - 1];
    }
  }

  lemma {:induction false} TrimEndTwice(s: string)
    ensures TrimEnd(TrimEnd(s)) == TrimEnd(s)
  {
    if s != "" && IsSpace(s[|s| - 1]) {
      TrimEndTwice(s[..|s| - 1]);
    }
  }

  /** Nothing but white space. */
  predicate Blank(s: string) {
    forall i :: 0 <= i < |s| ==> IsSpace(s[i])
  }

  /** No white space at either end. */
  predicate Bare(s: string) {
    s != "" ==> !IsSpace(s[0]) && !IsSpace(s[|s| - 1])
  }

  lemma {:induction false} TrimEndParts(s: string) returns (b: string)
    ensures s == TrimEnd(s) + b && Blank(b) && (TrimEnd(s) != "" ==> !IsSpace(TrimEnd(s)[|TrimEnd(s)| - 1]))
  {
    b := "";
    if s != "" && IsSpace(s[|s| - 1]) {
      b := TrimEndParts(s[..|s| - 1]);
      b := b + [s[|s| - 1]];
    }
  }

  lemma {:induction false} TrimStartParts(s: string) returns (a: string)
    ensures s == a + TrimStart(s) && Blank(a) && (TrimStart(s) != "" ==> !IsSpace(TrimStart(s)[0]))
  {
    a := "";
    if s != "" && IsSpace(s[0]) {
      a := TrimStartParts(s[1..]);
      a := [s[0]] + a;
    }
  }

  /** A text is its trimmed form with white space around it, and the trimmed form has none at its ends. */
  lemma TrimParts(s: string) returns (a: string, b: string)
    ensures s == a + Trim(s) + b && Blank(a) && Blank(b) && Bare(Trim(s))
  {
    b := TrimEndParts(s);
    a := TrimStartParts(TrimEnd(s));
    var t := TrimStart(TrimEnd(s));
    assert TrimEnd(s) == a + t;
    assert t != "" ==> t[|t| - 1] == TrimEnd(s)[|TrimEnd(s)| - 1];
  }

  lemma {:induction false} TrimEndBlank(t: string, b: string)
    requires Blank(b) && (t != "" ==> !IsSpace(t[|t| - 1]))
    ensures TrimEnd(t + b) == t
  {
    if b == "" {
      assert t + b == t;
    } else {
      assert (t + b)[..|t + b| - 1] == t + b[..|b| - 1];
      TrimEndBlank(t, b[..|b| - 1]);
    }
  }

  lemma {:induction false} TrimStartBlank(a: string, t: string)
    requires Blank(a) && (t != "" ==> !IsSpace(t[0]))
    ensures TrimStart(a + t) == t
  {
    if a == "" {
      assert a + t == t;
    } else {
      assert (a + t)[1..] == a[1..] + t;
      TrimStartBlank(a[1..], t);
    }
  }

  /** And no other text is: white space around a text without any at its ends is trimmed off. */
  lemma TrimExactly(a: string, t: string, b: string)
    requires Blank(a) && Blank(b) && Bare(t)
    ensures Trim(a + t + b) == t
  {
    if t == "" {
      assert a + t + b == "" + (a + b);
      TrimEndBlank("", a + b);
    } else {
      TrimEndBlank(a + t, b);
      TrimStartBlank(a, t);
    }
  }

  lemma EntryOfTrimmed(line: string, left: string, right: string)
    requires Trim(line) == left + "=" + right && left != "" && '=' !in left && left[0] != '#' && left[0] != '!'
    ensures Entry(line) == Some((Trim(left), Trim(right)))
  {
    var trimmed := Trim(line);
    IndexIs(trimmed, '=', |left|);
    assert trimmed[..|left|] == left && trimmed[|left| + 1..] == right;
  }

  lemma BlankHasNoEquals(b: string)
    requires Blank(b)
    ensures '=' !in b
  {
    forall i | 0 <= i < |b| ensures b[i] != '=' {
      assert IsSpace(b[i]);
    }
  }

  lemma TrimRight(t: string, b: string)
    requires Blank(b) && Bare(t)
    ensures Trim(t + b) == t
  {
    TrimExactly("", t, b);
    assert "" + t + b == t + b;
  }

  lemma TrimLeft(a: string, t: string)
    requires Blank(a) && Bare(t)
    ensures Trim(a + t) == t
  {
    TrimExactly(a, t, "");
    assert a + t + "" == a + t;
  }

  lemma Regroup(a: string, key: string, b: string, c: string, value: string, d: string)
    ensures a + key + b + "=" + c + value + d == a + (key + b + "=" + (c + value)) + d
    ensures value == "" ==> a + key + b + "=" + c + value + d == a + (key + b + "=") + (c + d)
    ensures value == "" ==> key + b + "=" == key + b + "=" + ""
  {
  }

  /** A line reads as its key and value whatever white space is around them. */
  lemma EntryOfSpaced(a: string, key: string, b: string, c: string, value: string, d: string)
    requires Blank(a) && Blank(b) && Blank(c) && Blank(d) && WellFormed(key) && key != "" && Bare(value)
    ensures Entry(a + key + b + "=" + c + value + d) == Some((key, value))
  {
    var line, rest := a + key + b + "=" + c + value + d, if value == "" then "" else c + value;
    Regroup(a, key, b, c, value, d);
    SpacedIsTrimmed(a, key, b, c, value, d);
    BlankHasNoEquals(b);
    EntryOfTrimmed(line, key + b, rest);
    TrimRight(key, b);
    if value != "" { TrimLeft(c, value); }
  }

  lemma SpacedIsTrimmed(a: string, key: string, b: string, c: string, value: string, d: string)
    requires Blank(a) && Blank(b) && Blank(c) && Blank(d) && WellFormed(key) && key != "" && Bare(value)
    ensures Trim(a + key + b + "=" + c + value + d) == key + b + "=" + if value == "" then "" else c + value
  {
    Regroup(a, key, b, c, value, d);
    assert !IsSpace('=');
    if value == "" {
      TrimExactly(a, key + b + "=", c + d);
    } else {
      TrimExactly(a, key + b + "=" + (c + value), d);
    }
  }

  lemma TrimLine(key: string, value: string)
    requires WellFormed(key)
    ensures Trim(Line(key, value)) == Line(key, TrimEnd(value))
  {
    TrimEndAfter(key + "=", value);
    assert !IsSpace(Line(key, TrimEnd(value))[0]);
  }

  lemma LineReadsBack(key: string, value: string)
    requires WellFormed(key)
    ensures Entry(Line(key, value)) == Some((key, Trim(value)))
  {
    var trimmed := Line(key, TrimEnd(value));
    TrimLine(key, value);
    assert trimmed[..|key|] == key && trimmed[|key| + 1..] == TrimEnd(value);
    IndexIs(trimmed, '=', |key|);
    TrimEndTwice(value);
  }

  // ---------- The editor against the reader ----------

  /** No two rows have this key. */
  ghost predicate Once(rows: seq<Row>, key: string) {
    forall i, j :: 0 <= i < j < |rows| && Keyed(rows[i], key) ==> !Keyed(rows[j], key)
  }

  lemma EditedRow(lines: seq<string>, changes: Changes, i: nat)
    requires WellFormedChanges(changes) && i < |lines|
    ensures var rows, row := Rows(lines), Entry(EditedLine(lines, changes, i));
      if rows[i].Some? && Has(changes, rows[i].value.0) && !Occurs(rows, rows[i].value.0, i)
      then row == Some((rows[i].value.0, Trim(Get(changes, rows[i].value.0)))) else row == rows[i]
  {
    var row := Rows(lines)[i];
    if row.Some? && Has(changes, row.value.0) {
      LineReadsBack(row.value.0, Get(changes, row.value.0));
    }
  }

  lemma AddedRow(lines: seq<string>, changes: Changes, j: nat)
    requires WellFormedChanges(changes) && j < |Remaining(Rows(lines), changes, |lines|)|
    ensures var rest := Remaining(Rows(lines), changes, |lines|);
      && Has(changes, rest[j].0) && !Occurs(Rows(lines), rest[j].0, |lines|)
      && Entry(Line(rest[j].0, rest[j].1)) == Some((rest[j].0, Trim(Get(changes, rest[j].0))))
  {
    var rest := Remaining(Rows(lines), changes, |lines|);
    assert rest[j] in rest;
    var i :| 0 <= i < |changes| && changes[i] == rest[j];
    LineReadsBack(rest[j].0, rest[j].1);
  }

  /** The rows of the old lines change in value only, and only where a line was edited. */
  ghost predicate EditedRows(rows: seq<Row>, changes: Changes, later: seq<Row>) {
    |later| >= |rows| && forall i :: 0 <= i < |rows| ==>
      if rows[i].Some? && Has(changes, rows[i].value.0) && !Occurs(rows, rows[i].value.0, i)
      then later[i] == Some((rows[i].value.0, Trim(Get(changes, rows[i].value.0)))) else later[i] == rows[i]
  }

  /** The rows after them are changes that had no row. */
  ghost predicate AddedRows(rows: seq<Row>, changes: Changes, later: seq<Row>) {
    forall i :: |rows| <= i < |later| ==> IsAdded(rows, changes, later[i])
  }

  ghost predicate IsAdded(rows: seq<Row>, changes: Changes, row: Row) {
    && row.Some? && Has(changes, row.value.0) && !Occurs(rows, row.value.0, |rows|)
    && row.value.1 == Trim(Get(changes, row.value.0))
  }

  /** Every change that had no row has one now. */
  ghost predicate AllAdded(rows: seq<Row>, changes: Changes, later: seq<Row>) {
    forall key: string :: Has(changes, key) && !Occurs(rows, key, |rows|) ==> Occurs(later, key, |later|)
  }

  lemma RowsAreEdited(lines: seq<string>, changes: Changes)
    requires WellFormedChanges(changes)
    ensures EditedRows(Rows(lines), changes, Rows(Apply(lines, changes)))
  {
    forall i | 0 <= i < |lines| ensures Rows(Apply(lines, changes))[i] == Entry(EditedLine(lines, changes, i)) {
      EditedRow(lines, changes, i);
    }
    forall i | 0 <= i < |lines| { EditedRow(lines, changes, i); }
  }

  /** Row `j` after the old ones is that of change `j` of `rest`. */
  ghost predicate AddedAt(rows: seq<Row>, changes: Changes, later: seq<Row>, rest: Changes, j: nat)
    requires j < |rest| && |later| == |rows| + |rest|
  {
    Keyed(later[|rows| + j], rest[j].0) && IsAdded(rows, changes, later[|rows| + j])
  }

  ghost predicate AddedFrom(rows: seq<Row>, changes: Changes, later: seq<Row>, rest: Changes) {
    |later| == |rows| + |rest| && forall j: nat :: j < |rest| ==> AddedAt(rows, changes, later, rest, j)
  }

  lemma RowOfAdded(lines: seq<string>, changes: Changes, j: nat)
    requires WellFormedChanges(changes) && j < |Remaining(Rows(lines), changes, |lines|)|
    ensures AddedAt(Rows(lines), changes, Rows(Apply(lines, changes)), Remaining(Rows(lines), changes, |lines|), j)
  {
    AddedRow(lines, changes, j);
  }

  lemma RestIsAdded(lines: seq<string>, changes: Changes)
    requires WellFormedChanges(changes)
    ensures AddedFrom(Rows(lines), changes, Rows(Apply(lines, changes)), Remaining(Rows(lines), changes, |lines|))
  {
    forall j: nat | j < |Remaining(Rows(lines), changes, |lines|)| {
      RowOfAdded(lines, changes, j);
    }
  }

  lemma RowsAreAdded(rows: seq<Row>, changes: Changes, later: seq<Row>, rest: Changes)
    requires AddedFrom(rows, changes, later, rest)
    ensures AddedRows(rows, changes, later)
  {
    forall i | |rows| <= i < |later| ensures IsAdded(rows, changes, later[i]) {
      assert AddedAt(rows, changes, later, rest, i - |rows|);
    }
  }

  lemma EveryChangeHasARow(rows: seq<Row>, changes: Changes, later: seq<Row>, rest: Changes)
    requires AddedFrom(rows, changes, later, rest) && Distinct(changes) && rest == Remaining(rows, changes, |rows|)
    ensures AllAdded(rows, changes, later)
  {
    forall key: string | Has(changes, key) && !Occurs(rows, key, |rows|) ensures Occurs(later, key, |later|) {
      RemainingValues(rows, changes, |rows|, key);
      assert AddedAt(rows, changes, later, rest, Position(rest, key));
      assert Keyed(later[|rows| + Position(rest, key)], key);
    }
  }

  lemma LookupAfter(rows: seq<Row>, changes: Changes, later: seq<Row>, key: string)
    requires EditedRows(rows, changes, later) && AddedRows(rows, changes, later) && AllAdded(rows, changes, later)
    ensures Lookup(later, key, |later|) ==
      if Has(changes, key) && Once(rows, key) then Some(Trim(Get(changes, key))) else Lookup(rows, key, |rows|)
  {
    var last, was := LastKeyed(later, key, |later|), LastKeyed(rows, key, |rows|);
    if Occurs(rows, key, |rows|) {
      assert Keyed(later[was.value], key);
      assert last == was;
      assert Occurs(rows, key, was.value) <==> !Once(rows, key);
    }
  }

  lemma ApplyHasNoBreaks(lines: seq<string>, changes: Changes)
    requires WellFormedChanges(changes) && forall i :: 0 <= i < |lines| ==> '\n' !in lines[i]
    ensures forall i :: 0 <= i < |Apply(lines, changes)| ==> '\n' !in Apply(lines, changes)[i]
  {
    var rest := Remaining(Rows(lines), changes, |lines|);
    forall i | 0 <= i < |rest| ensures '\n' !in Line(rest[i].0, rest[i].1) {
      assert rest[i] in rest;
    }
    forall i | 0 <= i < |lines| ensures '\n' !in EditedLine(lines, changes, i) {
    }
  }

  function NewText(text: string, changes: Changes): string {
    Join(Apply(Split(text), changes))
  }

  /**
   After an edit a changed key that the text has at most once has its new value, trimmed; every
   other key, and a changed key that the text has more than once, has the value it had.
   */
  lemma EditThenRead(text: string, changes: Changes, key: string)
    requires WellFormedChanges(changes)
    ensures Value(NewText(text, changes), key) ==
      if Has(changes, key) && Once(Rows(Split(text)), key) then Some(Trim(Get(changes, key))) else Value(text, key)
  {
    var lines := Split(text);
    ApplyHasNoBreaks(lines, changes);
    SplitJoin(Apply(lines, changes));
    RowsOfChomped(Apply(lines, changes));
    RowsAreEdited(lines, changes);
    RestIsAdded(lines, changes);
    RowsAreAdded(Rows(lines), changes, Rows(Apply(lines, changes)), Remaining(Rows(lines), changes, |lines|));
    EveryChangeHasARow(Rows(lines), changes, Rows(Apply(lines, changes)), Remaining(Rows(lines), changes, |lines|));
    LookupAfter(Rows(lines), changes, Rows(Apply(lines, changes)), key);
  }

  /** The new text reads as the old one overridden by the trimmed changes. */
  ghost predicate Overrides(text: string, changes: Changes) {
    forall key: string :: Value(NewText(text, changes), key) ==
      if Has(changes, key) then Some(Trim(Get(changes, key))) else Value(text, key)
  }

  /** That is so exactly when no changed key occurs twice, unless it had the new value already. */
  lemma EditLaw(text: string, changes: Changes)
    requires WellFormedChanges(changes)
    ensures Overrides(text, changes) <==>
      forall i :: 0 <= i < |changes| ==>
        Once(Rows(Split(text)), changes[i].0) || Value(text, changes[i].0) == Some(Trim(changes[i].1))
  {
    forall key: string { EditThenRead(text, changes, key); }
    forall i | 0 <= i < |changes| ensures Get(changes, changes[i].0) == changes[i].1 {
      var j := Position(changes, changes[i].0);
      assert j == i;
    }
  }

  lemma OneLine(line: string)
    requires '\n' !in line
    ensures Split(line) == [line]
  {
  }

  lemma TwoLines(first: string, second: string)
    requires '\n' !in first && '\n' !in second && (first != "" ==> first[|first| - 1] != '\r')
    ensures Split(first + "\n" + second) == [first, second]
  {
    SplitLine(first, second);
    OneLine(second);
  }

  /** A text of two lines with the same key. */
  function Twice(key: string, v: string, w: string): string {
    Line(key, v) + "\n" + Line(key, w)
  }

  lemma TwiceRows(key: string, v: string, w: string)
    requires WellFormed(key) && '\n' !in v && '\n' !in w && (v != "" ==> v[|v| - 1] != '\r')
    ensures Rows(Split(Twice(key, v, w))) == [Some((key, Trim(v))), Some((key, Trim(w)))]
  {
    TwoLines(Line(key, v), Line(key, w));
    LineReadsBack(key, v);
    LineReadsBack(key, w);
  }

  lemma TwoRowsNotOnce(rows: seq<Row>, key: string, v: string, w: string)
    requires rows == [Some((key, v)), Some((key, w))]
    ensures !Once(rows, key) && Lookup(rows, key, |rows|) == Some(w)
  {
    assert Keyed(rows[0], key) && Keyed(rows[1], key);
  }

  /** A file with a key twice: the edit changes the first line, and the reader goes by the second. */
  lemma EditNotSeen(key: string, v: string, w: string, x: string)
    requires WellFormed(key) && '\n' !in v && '\n' !in w && '\n' !in x && (v != "" ==> v[|v| - 1] != '\r')
    requires Trim(x) != Trim(w)
    ensures var (text, changes) := (Twice(key, v, w), [(key, x)]);
      && WellFormedChanges(changes) && !Overrides(text, changes)
      && Value(text, key) == Some(Trim(w)) == Value(NewText(text, changes), key)
  {
    var text, changes: Changes := Twice(key, v, w), [(key, x)];
    TwiceRows(key, v, w);
    TwoRowsNotOnce(Rows(Split(text)), key, Trim(v), Trim(w));
    assert changes[0].0 == key && Get(changes, key) == x;
    EditThenRead(text, changes, key);
  }

  lemma DigitsStay()
    ensures WellFormed("a") && Trim("2") == "2" && Trim("3") == "3"
  {
  }

  /** The text of the lines a=1 and a=2 with a set to 3. */
  lemma EditNotSeenIn()
    ensures var text := Twice("a", "1", "2");
      && Value(text, "a") == Some("2") == Value(NewText(text, [("a", "3")]), "a") && !Overrides(text, [("a", "3")])
  {
    DigitsStay();
    EditNotSeen("a", "1", "2", "3");
  }

  lemma {:induction false} DeleteKeepsDistinct(changes: Changes, key: string)
    requires Distinct(changes)
    ensures Distinct(Delete(changes, key))
  {
    if changes != [] {
      var rest := Delete(changes[1..], key);
      DeleteKeepsDistinct(changes[1..], key);
      forall i | 0 <= i < |rest| ensures rest[i].0 != changes[0].0 {
        assert rest[i] in rest && rest[i] in changes[1..];
      }
    }
  }

  lemma {:induction false} RemainingIsDistinct(rows: seq<Row>, changes: Changes, k: nat)
    requires Distinct(changes) && k <= |rows|
    ensures Distinct(Remaining(rows, changes, k))
  {
    if k != 0 {
      RemainingIsDistinct(rows, changes, k - 1);
      if rows[k - 1].Some? {
        DeleteKeepsDistinct(Remaining(rows, changes, k - 1), rows[k - 1].value.0);
      }
    }
  }

  /** A key is added once at most. */
  lemma AddedOnce(rows: seq<Row>, changes: Changes, later: seq<Row>, rest: Changes, key: string, i: nat, j: nat)
    requires AddedFrom(rows, changes, later, rest) && Distinct(rest) && i < j < |rest|
    ensures !(Keyed(later[|rows| + i], key) && Keyed(later[|rows| + j], key))
  {
    assert AddedAt(rows, changes, later, rest, i) && AddedAt(rows, changes, later, rest, j);
  }

  lemma KeysStay(rows: seq<Row>, changes: Changes, later: seq<Row>, key: string, i: nat)
    requires EditedRows(rows, changes, later) && i < |rows|
    ensures Keyed(later[i], key) <==> Keyed(rows[i], key)
  {
  }

  /** An edit makes no key occur twice that did not, and takes no second occurrence away. */
  lemma OnceStays(text: string, changes: Changes, key: string)
    requires WellFormedChanges(changes)
    ensures Once(Rows(Split(NewText(text, changes))), key) <==> Once(Rows(Split(text)), key)
  {
    var lines := Split(text);
    ApplyHasNoBreaks(lines, changes);
    SplitJoin(Apply(lines, changes));
    RowsOfChomped(Apply(lines, changes));
    RowsAreEdited(lines, changes);
    RestIsAdded(lines, changes);
    RemainingIsDistinct(Rows(lines), changes, |lines|);
    OnceStaysOnce(Rows(lines), changes, Rows(Apply(lines, changes)), Remaining(Rows(lines), changes, |lines|), key);
  }

  lemma OnceStaysOnce(rows: seq<Row>, changes: Changes, later: seq<Row>, rest: Changes, key: string)
    requires EditedRows(rows, changes, later) && AddedFrom(rows, changes, later, rest) && Distinct(rest)
    ensures Once(later, key) <==> Once(rows, key)
  {
    forall i | 0 <= i < |rows| ensures Keyed(later[i], key) <==> Keyed(rows[i], key) {
      KeysStay(rows, changes, later, key, i);
    }
    forall i, j | |rows| <= i < j < |later| ensures !(Keyed(later[i], key) && Keyed(later[j], key)) {
      AddedOnce(rows, changes, later, rest, key, i - |rows|, j - |rows|);
    }
    RowsAreAdded(rows, changes, later, rest);
    forall j | |rows| <= j < |later| && Keyed(later[j], key) ensures !Occurs(rows, key, |rows|) {
      assert IsAdded(rows, changes, later[j]);
    }
  }

  /** Two edits, one after the other, on every text and for every key: the later change of a key counts. */
  lemma EditTwice(text: string, changes: Changes, again: Changes, key: string)
    requires WellFormedChanges(changes) && WellFormedChanges(again)
    ensures Value(NewText(NewText(text, changes), again), key) ==
      if !Once(Rows(Split(text)), key) then Value(text, key)
      else if Has(again, key) then Some(Trim(Get(again, key)))
      else if Has(changes, key) then Some(Trim(Get(changes, key)))
      else Value(text, key)
  {
    EditThenRead(NewText(text, changes), again, key);
    EditThenRead(text, changes, key);
    OnceStays(text, changes, key);
  }

  // ---------- What stays where it is ----------

  /** The line is the first with a key that changes. */
  predicate Changing(lines: seq<string>, changes: Changes, i: nat)
    requires i < |lines|
  {
    var rows := Rows(lines);
    rows[i].Some? && Has(changes, rows[i].value.0) && !Occurs(rows, rows[i].value.0, i)
  }

  lemma EditedStays(lines: seq<string>, changes: Changes, i: nat)
    requires i < |lines| && !Changing(lines, changes, i)
    ensures i < |Apply(lines, changes)| && Apply(lines, changes)[i] == lines[i]
  {
  }

  /**
   Every other line keeps its index and, but for a carriage return at its end, its content; the
   carriage return stays exactly when the line is still the last.
   */
  lemma OtherLinesStay(text: string, changes: Changes, i: nat)
    requires WellFormedChanges(changes) && i < |Split(text)| && !Changing(Split(text), changes, i)
    ensures i < |Split(NewText(text, changes))|
    ensures Split(NewText(text, changes))[i] ==
      if i < |Apply(Split(text), changes)| - 1 then Chomp(Split(text)[i]) else Split(text)[i]
  {
    ApplyHasNoBreaks(Split(text), changes);
    SplitJoin(Apply(Split(text), changes));
    EditedStays(Split(text), changes, i);
  }

  /** An edit adds a line for each change whose key the text does not have, and no other. */
  lemma LinesAdded(text: string, changes: Changes)
    requires WellFormedChanges(changes)
    ensures var lines, rest := Split(text), Remaining(Rows(Split(text)), changes, |Split(text)|);
      && |Split(NewText(text, changes))| == |lines| + |rest|
      && forall x :: x in rest <==> x in changes && !Occurs(Rows(lines), x.0, |lines|)
  {
    ApplyHasNoBreaks(Split(text), changes);
    SplitJoin(Apply(Split(text), changes));
  }
}
