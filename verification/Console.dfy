/** The console stream: output arrives in chunks of text, and leaves as whole lines without colour codes. */
module Console {

  datatype Stream = Stdout | Stderr

  // ---------- Lines ----------

  /** The text up to each line feed, and what follows the last one. */
  function Split(text: string): (parts: seq<string>)
    ensures |parts| >= 1
  {
    if text == "" then [""]
    else
      var rest := Split(text[1..]);
      if text[0] == '\n' then [""] + rest else [[text[0]] + rest[0]] + rest[1..]
  }

  function Lines(text: string): seq<string> {
    Split(text)[..|Split(text)| - 1]
  }

  function Carry(text: string): string {
    Split(text)[|Split(text)| - 1]
  }

  lemma {:induction false} SplitBeforeBreak(a: string, b: string)
    requires '\n' !in a
    ensures Split(a + "\n" + b) == [a] + Split(b)
  {
    if a == "" {
      assert ("\n" + b)[1..] == b && a + "\n" + b == "\n" + b;
    } else {
      SplitBeforeBreak(a[1..], b);
      assert (a + "\n" + b)[1..] == a[1..] + "\n" + b;
      assert [a[0]] + a[1..] == a;
    }
  }

  lemma {:induction false} SplitWhole(a: string)
    requires '\n' !in a
    ensures Split(a) == [a]
  {
    if a != "" {
      SplitWhole(a[1..]);
      assert [a[0]] + a[1..] == a;
    }
  }

  lemma FirstBreak(text: string) returns (n: nat)
    ensures n <= |text| && '\n' !in text[..n] && (n < |text| ==> text[n] == '\n')
  {
    n := 0;
    while n < |text| && text[n] != '\n'
      invariant n <= |text| && '\n' !in text[..n]
    {
      assert text[..n + 1] == text[..n] + [text[n]];
      n := n + 1;
    }
  }

  lemma PartsAfterBreak(x: string, y: string)
    requires '\n' !in x
    ensures Lines(x + "\n" + y) == [x] + Lines(y) && Carry(x + "\n" + y) == Carry(y)
  {
    SplitBeforeBreak(x, y);
  }

  /** Splitting a text that comes in two pieces: the last part of the first goes on into the second. */
  lemma {:induction false} SplitAppend(a: string, b: string)
    ensures Split(a + b) == Lines(a) + Split(Carry(a) + b)
    decreases |a|
  {
    var n := FirstBreak(a);
    if n == |a| {
      assert a[..n] == a;
      SplitWhole(a);
      assert Lines(a) == [] && Carry(a) == a;
    } else {
      var (x, y) := (a[..n], a[n + 1..]);
      assert a == x + "\n" + y && a + b == x + "\n" + (y + b);
      SplitBeforeBreak(x, y + b);
      PartsAfterBreak(x, y);
      SplitAppend(y, b);
      Regroup([x], Lines(y), Split(Carry(y) + b));
    }
  }

  lemma Regroup(a: seq<string>, b: seq<string>, c: seq<string>)
    ensures a + (b + c) == a + b + c
  {
  }

  lemma LinesAppend(a: string, b: string)
    ensures Lines(a + b) == Lines(a) + Lines(Carry(a) + b)
    ensures Carry(a + b) == Carry(Carry(a) + b)
  {
    SplitAppend(a, b);
  }

  // ---------- Colour codes ----------

  const ESC := '\U{1B}'

  predicate IsParameter(c: char) {
    '0' <= c <= '9' || c == ';'
  }

  function ParametersFrom(s: string, i: nat): (n: nat)
    requires i <= |s|
    ensures i <= n <= |s| && forall k :: i <= k < n ==> IsParameter(s[k])
    decreases |s| - i
  {
    if i < |s| && IsParameter(s[i]) then ParametersFrom(s, i + 1) else i
  }

  /** The length of the colour code that `s` starts with, or zero. */
  function CodeLength(s: string): (n: nat)
    ensures n <= |s| && '\n' !in s[..n]
  {
    if |s| >= 2 && s[0] == ESC && s[1] == '[' then
      var end := ParametersFrom(s, 2);
      if end < |s| && s[end] == 'm' then end + 1 else 0
    else 0
  }

  /** replace(/\x1b\[[0-9;]*m/g, "") */
  function Strip(s: string): string
    decreases |s|
  {
    if s == "" then ""
    else if CodeLength(s) > 0 then Strip(s[CodeLength(s)..])
    else [s[0]] + Strip(s[1..])
  }

  function StripAll(lines: seq<string>): (r: seq<string>)
    ensures |r| == |lines|
  {
    seq(|lines|, i requires 0 <= i < |lines| => Strip(lines[i]))
  }

  // ---------- The stream ----------

  /** The carries of the two streams, and what was emitted on them. */
  datatype Feed = Feed(out: string, err: string, emitted: seq<(Stream, string)>) {
    function Pending(which: Stream): string {
      if which.Stdout? then out else err
    }

    /** The lines emitted on one stream, in order. */
    function Of(which: Stream): seq<string> {
      Only(emitted, which)
    }
  }

  function Only(emitted: seq<(Stream, string)>, which: Stream): seq<string> {
    if emitted == [] then []
    else
      var (front, last) := (emitted[..|emitted| - 1], emitted[|emitted| - 1]);
      Only(front, which) + (if last.0 == which then [last.1] else [])
  }

  class Tap {
    var out: string
    var err: string
    var emitted: seq<(Stream, string)>

    constructor ()
      ensures View() == Feed("", "", [])
    {
      out, err, emitted := "", "", [];
    }

    function View(): Feed
      reads this
    {
      Feed(out, err, emitted)
    }

    method OnLine(which: Stream, line: string)
      modifies this`emitted
      ensures View().Of(which) == old(View().Of(which)) + [line]
      ensures forall other :: other != which ==> View().Of(other) == old(View().Of(other))
    {
      emitted := emitted + [(which, line)];
      assert emitted[..|emitted| - 1] == old(emitted);
    }

    /** Every whole line of `buf` is emitted, stripped; the rest is carried. */
    method Push(buf: string, which: Stream)
      modifies this
      ensures View().Of(which) == old(View().Of(which)) + StripAll(Lines(buf))
      ensures View().Pending(which) == Carry(buf)
      ensures forall other :: other != which ==>
        View().Of(other) == old(View().Of(other)) && View().Pending(other) == old(View().Pending(other))
    {
      var parts := Split(buf);
      if which.Stdout? {
        out := parts[|parts| - 1];
      } else {
        err := parts[|parts| - 1];
      }
      ghost var lines := StripAll(Lines(buf));
      for k := 0 to |parts| - 1
        invariant View().Pending(which) == Carry(buf)
        invariant View().Of(which) == old(View().Of(which)) + lines[..k]
        invariant forall other :: other != which ==> View().Of(other) == old(View().Of(other))
        invariant forall other :: other != which ==> View().Pending(other) == old(View().Pending(other))
      {
        OnLine(which, Strip(parts[k]));
        assert lines[..k + 1] == lines[..k] + [Strip(parts[k])];
      }
      assert lines[..|parts| - 1] == lines;
    }

    /** A chunk arrives on one stream. */
    method Write(chunk: string, which: Stream)
      modifies this
      ensures View().Of(which) == old(View().Of(which)) + StripAll(Lines(old(View().Pending(which)) + chunk))
      ensures View().Pending(which) == Carry(old(View().Pending(which)) + chunk)
      ensures forall other :: other != which ==>
        View().Of(other) == old(View().Of(other)) && View().Pending(other) == old(View().Pending(other))
    {
      Push(View().Pending(which) + chunk, which);
    }
  }

  /** All the text of one stream, put together. */
  function Whole(chunks: seq<(Stream, string)>, which: Stream, k: nat): string
    requires k <= |chunks|
  {
    if k == 0 then "" else
      Whole(chunks, which, k - 1) + (if chunks[k - 1].0 == which then chunks[k - 1].1 else "")
  }

  lemma StripAllAppend(a: seq<string>, b: seq<string>)
    ensures StripAll(a + b) == StripAll(a) + StripAll(b)
  {
  }

  /** What one stream has emitted and still carries is what its text, put together, splits into. */
  ghost predicate Delivered(feed: Feed, which: Stream, text: string) {
    feed.Of(which) == StripAll(Lines(text)) && feed.Pending(which) == Carry(text)
  }

  lemma ChunkDelivers(before: Feed, which: Stream, text: string, chunk: string, after: Feed)
    requires Delivered(before, which, text)
    requires after.Of(which) == before.Of(which) + StripAll(Lines(before.Pending(which) + chunk))
    requires after.Pending(which) == Carry(before.Pending(which) + chunk)
    ensures Delivered(after, which, text + chunk)
  {
    LinesAppend(text, chunk);
    StripAllAppend(Lines(text), Lines(Carry(text) + chunk));
  }

  lemma WholeNext(chunks: seq<(Stream, string)>, which: Stream, k: nat)
    requires k < |chunks|
    ensures Whole(chunks, which, k + 1) ==
      if chunks[k].0 == which then Whole(chunks, which, k) + chunks[k].1 else Whole(chunks, which, k)
  {
  }

  ghost predicate AllDelivered(feed: Feed, chunks: seq<(Stream, string)>, k: nat)
    requires k <= |chunks|
  {
    forall which :: Delivered(feed, which, Whole(chunks, which, k))
  }

  lemma NextDelivers(before: Feed, after: Feed, chunks: seq<(Stream, string)>, k: nat)
    requires k < |chunks| && AllDelivered(before, chunks, k)
    requires var (which, chunk) := chunks[k];
      && after.Of(which) == before.Of(which) + StripAll(Lines(before.Pending(which) + chunk))
      && after.Pending(which) == Carry(before.Pending(which) + chunk)
    requires forall other :: other != chunks[k].0 ==>
      after.Of(other) == before.Of(other) && after.Pending(other) == before.Pending(other)
    ensures AllDelivered(after, chunks, k + 1)
  {
    var next := k + 1;
    forall which ensures Delivered(after, which, Whole(chunks, which, next)) {
      WholeNext(chunks, which, k);
      if which == chunks[k].0 {
        ChunkDelivers(before, which, Whole(chunks, which, k), chunks[k].1, after);
      } else {
        assert Delivered(before, which, Whole(chunks, which, k));
      }
    }
  }

  /**
   However the output of the two streams is cut into chunks, and however the chunks interleave,
   each stream emits the lines of its whole text and carries the rest.
   */
  method Attach(chunks: seq<(Stream, string)>) returns (tap: Tap)
    ensures forall which :: Delivered(tap.View(), which, Whole(chunks, which, |chunks|))
  {
    tap := new Tap();
    for k := 0 to |chunks|
      invariant AllDelivered(tap.View(), chunks, k)
    {
      var (which, chunk) := chunks[k];
      ghost var before := tap.View();
      tap.Write(chunk, which);
      NextDelivers(before, tap.View(), chunks, k);
    }
  }

  // ---------- Colour codes and chunks ----------

  lemma {:induction false} ParametersBeforeBreak(a: string, b: string, i: nat)
    requires i <= |a|
    ensures ParametersFrom(a + "\n" + b, i) == ParametersFrom(a, i)
    decreases |a| - i
  {
    if i < |a| && IsParameter(a[i]) {
      ParametersBeforeBreak(a, b, i + 1);
    }
  }

  lemma CodeBeforeBreak(a: string, b: string)
    requires '\n' !in a
    ensures CodeLength(a + "\n" + b) == CodeLength(a)
  {
    if |a| >= 2 {
      ParametersBeforeBreak(a, b, 2);
    }
  }

  lemma StripCode(s: string)
    requires CodeLength(s) > 0
    ensures Strip(s) == Strip(s[CodeLength(s)..])
  {
  }

  lemma StripPlain(s: string)
    requires s != "" && CodeLength(s) == 0
    ensures Strip(s) == [s[0]] + Strip(s[1..])
  {
  }

  lemma DropBeforeBreak(a: string, b: string, n: nat)
    requires n <= |a|
    ensures (a + "\n" + b)[n..] == a[n..] + "\n" + b
  {
  }

  lemma {:induction false} StripBeforeBreak(a: string, b: string)
    requires '\n' !in a
    ensures Strip(a + "\n" + b) == Strip(a) + "\n" + Strip(b)
    decreases |a|
  {
    var s, n := a + "\n" + b, CodeLength(a);
    CodeBeforeBreak(a, b);
    if a == "" {
      assert s == "\n" + b && s[1..] == b;
      StripPlain(s);
    } else if n > 0 {
      StripCode(s);
      StripCode(a);
      DropBeforeBreak(a, b, n);
      StripBeforeBreak(a[n..], b);
    } else {
      StripPlain(s);
      StripPlain(a);
      DropBeforeBreak(a, b, 1);
      StripBeforeBreak(a[1..], b);
    }
  }

  lemma {:induction false} StripAddsNoBreak(a: string)
    requires '\n' !in a
    ensures '\n' !in Strip(a)
    decreases |a|
  {
    if a != "" {
      StripAddsNoBreak(if CodeLength(a) > 0 then a[CodeLength(a)..] else a[1..]);
    }
  }

  /** A colour code never reaches over a line break, so stripping line by line strips the whole text. */
  lemma {:induction false} StripThenSplit(text: string)
    ensures Split(Strip(text)) == StripAll(Split(text))
    decreases |text|
  {
    var n := FirstBreak(text);
    var a := text[..n];
    StripAddsNoBreak(a);
    if n == |text| {
      assert a == text;
      SplitWhole(text);
      SplitWhole(Strip(text));
    } else {
      var b := text[n + 1..];
      assert text == a + "\n" + b;
      StripBeforeBreak(a, b);
      SplitBeforeBreak(a, b);
      SplitBeforeBreak(Strip(a), Strip(b));
      StripThenSplit(b);
      StripAllAppend([a], Split(b));
      assert StripAll([a]) == [Strip(a)];
    }
  }

  /** Even a colour code that is cut in two by a chunk boundary is gone from the lines. */
  lemma CodesNeverShow(feed: Feed, which: Stream, text: string)
    requires Delivered(feed, which, text)
    ensures feed.Of(which) == Lines(Strip(text))
  {
    StripThenSplit(text);
  }

  // ---------- What stripping removes ----------

  lemma {:induction false} ParametersEnd(digits: string, rest: string, i: nat)
    requires 2 <= i <= 2 + |digits| && forall k :: 0 <= k < |digits| ==> '0' <= digits[k] <= '9' || digits[k] == ';'
    ensures ParametersFrom([ESC, '['] + digits + "m" + rest, i) == 2 + |digits|
    decreases 2 + |digits| - i
  {
    if i < 2 + |digits| {
      ParametersEnd(digits, rest, i + 1);
    }
  }

  /** ESC, a bracket, digits and semicolons and an m in front of any text are removed. */
  lemma CodeIsRemoved(digits: string, rest: string)
    requires forall k :: 0 <= k < |digits| ==> '0' <= digits[k] <= '9' || digits[k] == ';'
    ensures Strip([ESC, '['] + digits + "m" + rest) == Strip(rest)
  {
    var s := [ESC, '['] + digits + "m" + rest;
    ParametersEnd(digits, rest, 2);
    assert CodeLength(s) == 3 + |digits|;
    StripCode(s);
    assert s[3 + |digits|..] == rest;
  }

  /** A colour code starts at `i`. */
  predicate CodeAt(s: string, i: nat)
    requires i <= |s|
  {
    CodeLength(s[i..]) > 0
  }

  ghost predicate HasCode(s: string) {
    exists i: nat :: i <= |s| && CodeAt(s, i)
  }

  lemma CodesFurtherOn(s: string, n: nat, i: nat)
    requires n + i <= |s|
    ensures CodeAt(s[n..], i) == CodeAt(s, n + i)
  {
    assert s[n..][i..] == s[n + i..];
  }

  lemma {:induction false} StripIsShorter(s: string)
    ensures |Strip(s)| <= |s|
    decreases |s|
  {
    if s != "" {
      StripIsShorter(if CodeLength(s) > 0 then s[CodeLength(s)..] else s[1..]);
    }
  }

  /** Exactly the texts without a colour code are left as they are. */
  lemma {:induction false} StripKeepsExactly(s: string)
    ensures Strip(s) == s <==> !HasCode(s)
    decreases |s|
  {
    if s != "" {
      assert s[0..] == s;
      if CodeLength(s) > 0 {
        StripIsShorter(s[CodeLength(s)..]);
        assert CodeAt(s, 0);
      } else {
        StripKeepsExactly(s[1..]);
        CodesOfRest(s);
        assert s == [s[0]] + s[1..];
      }
    }
  }

  lemma CodesOfRest(s: string)
    requires s != "" && CodeLength(s) == 0
    ensures HasCode(s) <==> HasCode(s[1..])
  {
    assert s[0..] == s;
    if HasCode(s[1..]) {
      var i: nat :| i <= |s| - 1 && CodeAt(s[1..], i);
      CodesFurtherOn(s, 1, i);
    }
    if HasCode(s) {
      var i: nat :| i <= |s| && CodeAt(s, i);
      CodesFurtherOn(s, 1, i - 1);
    }
  }

  /** An escape character that starts no code. */
  ghost predicate HasLoneEscape(s: string) {
    exists i: nat :: i < |s| && s[i] == ESC && !CodeAt(s, i)
  }

  lemma EscapesFurtherOn(s: string, n: nat)
    requires n <= |s| && forall i :: 0 <= i < n && s[i] == ESC ==> CodeAt(s, i)
    ensures HasLoneEscape(s) <==> HasLoneEscape(s[n..])
  {
    if HasLoneEscape(s[n..]) {
      var i: nat :| i < |s| - n && s[n..][i] == ESC && !CodeAt(s[n..], i);
      CodesFurtherOn(s, n, i);
      assert s[n + i] == ESC;
    }
    if HasLoneEscape(s) {
      var i: nat :| i < |s| && s[i] == ESC && !CodeAt(s, i);
      CodesFurtherOn(s, n, i - n);
      assert s[n..][i - n] == ESC;
    }
  }

  /** Inside a code there is no other escape character. */
  lemma CodeHasOneEscape(s: string)
    requires CodeLength(s) > 0
    ensures s[0] == ESC && forall i :: 0 < i < CodeLength(s) ==> s[i] != ESC
  {
  }

  /** What is left of escape characters are exactly those that started no code. */
  lemma {:induction false} EscapesLeftExactly(s: string)
    ensures ESC in Strip(s) <==> HasLoneEscape(s)
    decreases |s|
  {
    if s != "" {
      var n := if CodeLength(s) > 0 then CodeLength(s) else 1;
      assert s[0..] == s;
      EscapesLeftExactly(s[n..]);
      if CodeLength(s) > 0 {
        CodeHasOneEscape(s);
        EscapesFurtherOn(s, n);
        StripCode(s);
      } else if s[0] == ESC {
        assert !CodeAt(s, 0);
        StripPlain(s);
      } else {
        EscapesFurtherOn(s, 1);
        StripPlain(s);
      }
    }
  }

  /** A text all of whose escape characters start codes has no code left. */
  lemma NoCodeLeft(s: string)
    requires !HasLoneEscape(s)
    ensures !HasCode(Strip(s))
  {
    EscapesLeftExactly(s);
    CodeNeedsEscape(Strip(s));
  }

  lemma CodeNeedsEscape(s: string)
    ensures HasCode(s) ==> ESC in s
  {
    if HasCode(s) {
      var i: nat :| i <= |s| && CodeAt(s, i);
      assert s[i..][0] == s[i];
    }
  }

  /** Otherwise there may be: a code inside another is removed, and what it split closes up to a code. */
  lemma CodeInCode()
    ensures var code := [ESC, '[', '3', '1', 'm'];
      Strip([ESC, '['] + code + "31m") == code && HasCode(code)
  {
    var code, rest := [ESC, '[', '3', '1', 'm'], "31m";
    assert code == [ESC, '['] + "31" + "m" + "";
    ParametersEnd("31", "", 2);
    assert code[0..] == code && CodeAt(code, 0);
    assert [ESC, '['] + code + rest == [ESC] + (['['] + (code + rest));
    assert code + rest == [ESC, '['] + "31" + "m" + rest;
    CodeIsRemoved("31", rest);
    PlainStays(rest);
    StripPlain(['['] + (code + rest));
    StripPlain([ESC] + (['['] + (code + rest)));
  }

  lemma {:induction false} PlainStays(s: string)
    requires ESC !in s
    ensures Strip(s) == s
    decreases |s|
  {
    if s != "" {
      PlainStays(s[1..]);
      StripPlain(s);
    }
  }
}
