/**
 The settings a customer may change: which fields each template has, which values are accepted and how
 they are written, and what a write does to the file that the server reads.
 */
module GameSettings {
  import opened Wrappers
  import opened Properties
  import opened PropertyLaws

  datatype Kind =
    | Text
    | Number(min: Option<int>, max: Option<int>)
    | Boolean
    | Select(options: seq<string>)

  datatype Field = Field(key: string, kind: Kind, restart: bool, managed: bool)

  function Plain(key: string, kind: Kind): Field {
    Field(key, kind, false, false)
  }

  function Restart(key: string, kind: Kind): Field {
    Field(key, kind, true, false)
  }

  function Managed(key: string, kind: Kind): Field {
    Field(key, kind, false, true)
  }

  function Range(min: int, max: int): Kind {
    Number(Some(min), Some(max))
  }

  const ANY := Number(None, None)

  const DIFFICULTIES := ["peaceful", "easy", "normal", "hard"]

  const JAVA_MODES := ["survival", "creative", "adventure", "spectator"]

  const BEDROCK_MODES := ["survival", "creative", "adventure"]

  const JAVA_PLAY := [
    Plain("motd", Text), Plain("gamemode", Select(JAVA_MODES)),
    Plain("difficulty", Select(DIFFICULTIES)), Plain("max-players", Range(1, 200))]

  const JAVA_RULES := [
    Plain("pvp", Boolean), Restart("hardcore", Boolean), Plain("white-list", Boolean), Restart("online-mode", Boolean)]

  const JAVA_RANGES := [
    Plain("spawn-protection", Range(0, 64)), Plain("view-distance", Range(3, 32)),
    Plain("simulation-distance", Range(3, 32)), Plain("allow-flight", Boolean)]

  const JAVA_WORLD := [
    Restart("allow-nether", Boolean), Restart("enable-command-block", Boolean),
    Restart("level-seed", Text), Restart("level-name", Text)]

  const JAVA_MANAGED := [
    Managed("server-port", ANY), Managed("server-ip", Text), Managed("rcon.port", ANY), Managed("query.port", ANY)]

  const JAVA_FIELDS := JAVA_PLAY + JAVA_RULES + JAVA_RANGES + JAVA_WORLD + JAVA_MANAGED

  const BEDROCK_PLAY := [
    Plain("server-name", Text), Plain("gamemode", Select(BEDROCK_MODES)),
    Plain("difficulty", Select(DIFFICULTIES)), Plain("max-players", Range(1, 100))]

  const BEDROCK_RULES := [
    Restart("allow-cheats", Boolean), Restart("online-mode", Boolean),
    Plain("view-distance", Range(4, 32)), Plain("tick-distance", Range(4, 12))]

  const BEDROCK_WORLD := [
    Plain("player-idle-timeout", Range(0, 120)), Restart("level-name", Text), Restart("level-seed", Text),
    Managed("server-port", ANY)]

  const BEDROCK_FIELDS := BEDROCK_PLAY + BEDROCK_RULES + BEDROCK_WORLD

  predicate IncludesAt(s: string, part: string, i: nat) {
    i + |part| <= |s| && s[i..i + |part|] == part
  }

  predicate Includes(s: string, part: string) {
    exists i :: 0 <= i <= |s| && IncludesAt(s, part, i)
  }

  function ProfileForTemplate(templateKey: string): seq<Field> {
    if Includes(templateKey, "bedrock") then BEDROCK_FIELDS else JAVA_FIELDS
  }

  /** A template is for Bedrock exactly when its key has "bedrock" somewhere in it. */
  lemma IncludesExactly(s: string, part: string)
    ensures Includes(s, part) <==> exists a: string, b: string :: s == a + part + b
  {
    if Includes(s, part) {
      var i :| 0 <= i <= |s| && IncludesAt(s, part, i);
      assert s == s[..i] + part + s[i + |part|..];
    }
    if a: string, b: string :| s == a + part + b {
      assert IncludesAt(s, part, |a|);
    }
  }

  // ---------- Numbers ----------

  /** Math.round */
  function Round(x: real): int {
    (x + 0.5).Floor
  }

  /** The nearest integer, the greater one of two as near. */
  lemma RoundIsNearest(x: real, k: int)
    ensures Round(x) == k <==> k as real - 0.5 <= x < k as real + 0.5
  {
  }

  function Digit(n: nat): char
    requires n < 10
  {
    "0123456789"[n]
  }

  function Digits(n: nat): string {
    if n < 10 then [Digit(n)] else Digits(n / 10) + [Digit(n % 10)]
  }

  /** String(n) */
  function Decimal(n: int): string {
    if n < 0 then "-" + Digits(-n) else Digits(n)
  }

  function DigitValue(c: char): int {
    if '0' <= c <= '9' then c as int - '0' as int else 0
  }

  function DigitsValue(s: string): int {
    if s == "" then 0 else 10 * DigitsValue(s[..|s| - 1]) + DigitValue(s[|s| - 1])
  }

  function DecimalValue(s: string): int {
    if s != "" && s[0] == '-' then -DigitsValue(s[1..]) else DigitsValue(s)
  }

  lemma {:induction false} DigitsReadBack(n: nat)
    ensures Digits(n) != "" && DigitsValue(Digits(n)) == n
    ensures forall i :: 0 <= i < |Digits(n)| ==> '0' <= Digits(n)[i] <= '9'
    ensures Digits(n)[0] == '0' <==> n == 0
  {
    assert DigitValue(Digit(n % 10)) == n % 10;
    if n < 10 {
      assert [Digit(n)][..0] == "";
    } else {
      DigitsReadBack(n / 10);
      assert Digits(n)[..|Digits(n)| - 1] == Digits(n / 10);
    }
  }

  /** What is written denotes the number, with a sign only below zero and no zero in front. */
  lemma DecimalReadsBack(n: int)
    ensures DecimalValue(Decimal(n)) == n && '\n' !in Decimal(n) && Decimal(n) != ""
    ensures Decimal(n)[0] == '-' <==> n < 0
    ensures Decimal(n)[0] == '0' <==> n == 0
    ensures n < 0 ==> |Decimal(n)| > 1 && Decimal(n)[1] != '0'
  {
    DigitsReadBack(if n < 0 then -n else n);
    if n < 0 {
      assert Decimal(n)[1..] == Digits(-n);
    }
  }

  // ---------- Values ----------

  /** `parse` is Number(raw), with nothing for NaN and the infinities. */
  function Coerce(kind: Kind, raw: string, parse: string -> Option<real>): Option<string> {
    match kind
    case Boolean => if raw == "true" || raw == "false" then Some(raw) else None
    case Number(min, max) =>
      var n := parse(raw);
      if n.None? then None
      else if min.Some? && n.value < min.value as real then None
      else if max.Some? && n.value > max.value as real then None
      else Some(Decimal(Round(n.value)))
    case Select(options) => if raw in options then Some(raw) else None
    case Text => if |raw| <= 512 && '\r' !in raw && '\n' !in raw then Some(raw) else None
  }

  /** Whatever is accepted suits the field; a number is in range after it was rounded. */
  predicate Suits(kind: Kind, value: string) {
    match kind
    case Boolean => value == "true" || value == "false"
    case Number(min, max) =>
      && (min.Some? ==> min.value <= DecimalValue(value)) && (max.Some? ==> DecimalValue(value) <= max.value)
      && value == Decimal(DecimalValue(value))
    case Select(options) => value in options
    case Text => |value| <= 512 && '\r' !in value && '\n' !in value
  }

  lemma AcceptedSuits(kind: Kind, raw: string, parse: string -> Option<real>)
    requires Coerce(kind, raw, parse).Some?
    ensures Suits(kind, Coerce(kind, raw, parse).value)
  {
    if kind.Number? {
      DecimalReadsBack(Round(parse(raw).value));
    }
  }

  /** An accepted value that is given again is accepted as it is. */
  lemma AcceptedAgain(kind: Kind, value: string, parse: string -> Option<real>)
    requires Suits(kind, value)
    requires kind.Number? ==> parse(value) == Some(DecimalValue(value) as real)
    ensures Coerce(kind, value, parse) == Some(value)
  {
  }

  // ---------- The request ----------

  /** The visible field with this key. */
  function Editable(fields: seq<Field>, key: string): (r: Option<Field>)
    ensures r.Some? ==> r.value in fields && r.value.key == key && !r.value.managed
    ensures r.None? ==> forall f :: f in fields && f.key == key ==> f.managed
  {
    if fields == [] then None
    else
      var rest := Editable(fields[1..], key);
      if rest.Some? then rest
      else if fields[0].key == key && !fields[0].managed then Some(fields[0]) else None
  }

  /** What the file gets for one entry of the request. */
  function Taken(fields: seq<Field>, key: string, raw: string, parse: string -> Option<real>): Option<string> {
    var field := Editable(fields, key);
    if field.None? then None else Coerce(field.value.kind, raw, parse)
  }

  /** The fields with this key: `f` and no other. */
  ghost predicate Only(fields: seq<Field>, f: Field) {
    f in fields && !f.managed && forall g :: g in fields && g.key == f.key ==> g == f
  }

  /** No field that a customer may set has this key. */
  ghost predicate Closed(fields: seq<Field>, key: string) {
    forall g :: g in fields && g.key == key ==> g.managed
  }

  lemma OnlyIsEditable(fields: seq<Field>, f: Field)
    requires Only(fields, f)
    ensures Editable(fields, f.key) == Some(f)
  {
  }

  lemma ClosedIsNot(fields: seq<Field>, key: string)
    requires Closed(fields, key)
    ensures Editable(fields, key).None?
  {
  }

  /** No field has the key, or only `f` has it. */
  ghost predicate AtMost(fields: seq<Field>, f: Field) {
    forall g :: g in fields && g.key == f.key ==> g == f
  }

  lemma FourFields(fields: seq<Field>, f: Field)
    requires |fields| == 4 && (fields[0].key != f.key || fields[0] == f) && (fields[1].key != f.key || fields[1] == f)
    requires (fields[2].key != f.key || fields[2] == f) && (fields[3].key != f.key || fields[3] == f)
    ensures AtMost(fields, f)
  {
  }

  lemma JavaGroups(f: Field)
    requires f in JAVA_FIELDS && !f.managed
    requires AtMost(JAVA_PLAY, f) && AtMost(JAVA_RULES, f) && AtMost(JAVA_RANGES, f)
    requires AtMost(JAVA_WORLD, f) && AtMost(JAVA_MANAGED, f)
    ensures Only(JAVA_FIELDS, f)
  {
  }

  lemma JavaPvp()
    ensures Only(JAVA_FIELDS, Plain("pvp", Boolean))
  {
    var f := Plain("pvp", Boolean);
    FourFields(JAVA_PLAY, f);
    FourFields(JAVA_RULES, f);
    FourFields(JAVA_RANGES, f);
    FourFields(JAVA_WORLD, f);
    FourFields(JAVA_MANAGED, f);
    assert f in JAVA_RULES;
    JavaGroups(f);
  }

  lemma BedrockPvp()
    ensures Closed(BEDROCK_FIELDS, "pvp")
  {
  }

  lemma BedrockCheats()
    ensures Only(BEDROCK_FIELDS, Restart("allow-cheats", Boolean))
  {
  }

  lemma JavaCheats()
    ensures Closed(JAVA_FIELDS, "allow-cheats")
  {
  }

  lemma JavaMode()
    ensures Only(JAVA_FIELDS, Plain("gamemode", Select(JAVA_MODES)))
  {
    var f := Plain("gamemode", Select(JAVA_MODES));
    FourFields(JAVA_PLAY, f);
    FourFields(JAVA_RULES, f);
    FourFields(JAVA_RANGES, f);
    FourFields(JAVA_WORLD, f);
    FourFields(JAVA_MANAGED, f);
    assert f in JAVA_PLAY;
    JavaGroups(f);
  }

  lemma BedrockMode()
    ensures Only(BEDROCK_FIELDS, Plain("gamemode", Select(BEDROCK_MODES)))
  {
  }

  lemma JavaPlayers()
    ensures Only(JAVA_FIELDS, Plain("max-players", Range(1, 200)))
  {
    var f := Plain("max-players", Range(1, 200));
    FourFields(JAVA_PLAY, f);
    FourFields(JAVA_RULES, f);
    FourFields(JAVA_RANGES, f);
    FourFields(JAVA_WORLD, f);
    FourFields(JAVA_MANAGED, f);
    assert f in JAVA_PLAY;
    JavaGroups(f);
  }

  lemma BedrockPlayers()
    ensures Only(BEDROCK_FIELDS, Plain("max-players", Range(1, 100)))
  {
  }

  lemma JavaPort()
    ensures Closed(JAVA_FIELDS, "server-port")
  {
  }

  lemma BedrockPort()
    ensures Closed(BEDROCK_FIELDS, "server-port")
  {
  }

  lemma TakenForJava(raw: string, parse: string -> Option<real>)
    requires parse(raw).Some?
    ensures Taken(JAVA_FIELDS, "pvp", "true", parse) == Some("true")
    ensures Taken(JAVA_FIELDS, "allow-cheats", "true", parse) == None
    ensures Taken(JAVA_FIELDS, "gamemode", "spectator", parse) == Some("spectator")
    ensures Taken(JAVA_FIELDS, "max-players", raw, parse) ==
      if 1.0 <= parse(raw).value <= 200.0 then Some(Decimal(Round(parse(raw).value))) else None
    ensures Taken(JAVA_FIELDS, "server-port", raw, parse) == None
  {
    JavaPvp(); JavaCheats(); JavaMode(); JavaPlayers(); JavaPort();
    OnlyIsEditable(JAVA_FIELDS, Plain("pvp", Boolean));
    ClosedIsNot(JAVA_FIELDS, "allow-cheats");
    OnlyIsEditable(JAVA_FIELDS, Plain("gamemode", Select(JAVA_MODES)));
    OnlyIsEditable(JAVA_FIELDS, Plain("max-players", Range(1, 200)));
    ClosedIsNot(JAVA_FIELDS, "server-port");
  }

  lemma TakenForBedrock(raw: string, parse: string -> Option<real>)
    requires parse(raw).Some?
    ensures Taken(BEDROCK_FIELDS, "pvp", "true", parse) == None
    ensures Taken(BEDROCK_FIELDS, "allow-cheats", "true", parse) == Some("true")
    ensures Taken(BEDROCK_FIELDS, "gamemode", "spectator", parse) == None
    ensures Taken(BEDROCK_FIELDS, "max-players", raw, parse) ==
      if 1.0 <= parse(raw).value <= 100.0 then Some(Decimal(Round(parse(raw).value))) else None
    ensures Taken(BEDROCK_FIELDS, "server-port", raw, parse) == None
  {
    BedrockPvp(); BedrockCheats(); BedrockMode(); BedrockPlayers(); BedrockPort();
    ClosedIsNot(BEDROCK_FIELDS, "pvp");
    OnlyIsEditable(BEDROCK_FIELDS, Restart("allow-cheats", Boolean));
    OnlyIsEditable(BEDROCK_FIELDS, Plain("gamemode", Select(BEDROCK_MODES)));
    OnlyIsEditable(BEDROCK_FIELDS, Plain("max-players", Range(1, 100)));
    ClosedIsNot(BEDROCK_FIELDS, "server-port");
  }

  /** The template decides which keys, options and bounds there are. */
  lemma TakenByTemplate(templateKey: string, raw: string, parse: string -> Option<real>)
    requires parse(raw).Some?
    ensures var (fields, n, bedrock) := (ProfileForTemplate(templateKey), parse(raw).value,
                                         exists a: string, b: string :: templateKey == a + "bedrock" + b);
      && Taken(fields, "pvp", "true", parse) == (if bedrock then None else Some("true"))
      && Taken(fields, "allow-cheats", "true", parse) == (if bedrock then Some("true") else None)
      && Taken(fields, "gamemode", "spectator", parse) == (if bedrock then None else Some("spectator"))
      && Taken(fields, "max-players", raw, parse) ==
           (if 1.0 <= n <= (if bedrock then 100.0 else 200.0) then Some(Decimal(Round(n))) else None)
      && Taken(fields, "server-port", raw, parse) == None
  {
    IncludesExactly(templateKey, "bedrock");
    TakenForJava(raw, parse);
    TakenForBedrock(raw, parse);
  }

  /** The entry comes from the request, with the value that is taken for it. */
  ghost predicate IsTaken(fields: seq<Field>, changes: Changes, parse: string -> Option<real>, x: (string, string)) {
    exists i :: 0 <= i < |changes| && changes[i].0 == x.0 && Taken(fields, x.0, changes[i].1, parse) == Some(x.1)
  }

  method FilterChanges(fields: seq<Field>, changes: Changes, parse: string -> Option<real>)
    returns (accepted: Changes, rejected: seq<string>)
    requires Distinct(changes)
    ensures Distinct(accepted)
    ensures forall x :: x in accepted <==> IsTaken(fields, changes, parse, x)
    ensures forall key :: key in rejected <==>
      exists i :: 0 <= i < |changes| && changes[i].0 == key && Taken(fields, key, changes[i].1, parse).None?
    ensures |accepted| + |rejected| == |changes|
  {
    accepted, rejected := [], [];
    for i := 0 to |changes|
      invariant Distinct(accepted) && |accepted| + |rejected| == i
      invariant forall x :: x in accepted <==>
        exists k :: 0 <= k < i && changes[k].0 == x.0 && Taken(fields, x.0, changes[k].1, parse) == Some(x.1)
      invariant forall key :: key in rejected <==>
        exists k :: 0 <= k < i && changes[k].0 == key && Taken(fields, key, changes[k].1, parse).None?
    {
      var (key, raw) := changes[i];
      var field := Editable(fields, key);
      if field.None? {
        rejected := rejected + [key];
        continue;
      }
      var value := Coerce(field.value.kind, raw, parse);
      if value.Some? {
        accepted := accepted + [(key, value.value)];
      } else {
        rejected := rejected + [key];
      }
    }
  }

  // ---------- The fields ----------

  predicate IsPlain(c: char) {
    'a' <= c <= 'z' || c == '-' || c == '.'
  }

  predicate OneLine(options: seq<string>) {
    forall i :: 0 <= i < |options| ==> '\n' !in options[i]
  }

  /** A visible number has both bounds. */
  predicate FieldOk(f: Field) {
    && WellFormed(f.key) && (f.kind.Select? ==> OneLine(f.kind.options))
    && (f.kind.Number? && !f.managed ==> f.kind.min.Some? && f.kind.max.Some? && f.kind.min.value <= f.kind.max.value)
  }

  ghost predicate FieldsOk(fields: seq<Field>) {
    forall i :: 0 <= i < |fields| ==> FieldOk(fields[i])
  }

  lemma PlainIsWellFormed(key: string)
    requires key != "" && forall i :: 0 <= i < |key| ==> IsPlain(key[i])
    ensures WellFormed(key)
  {
  }

  lemma OptionsOk()
    ensures OneLine(DIFFICULTIES) && OneLine(JAVA_MODES) && OneLine(BEDROCK_MODES)
  {
  }

  lemma JavaPlayOk()
    ensures FieldsOk(JAVA_PLAY)
  {
    OptionsOk();
    PlainIsWellFormed("motd"); PlainIsWellFormed("gamemode");
    PlainIsWellFormed("difficulty"); PlainIsWellFormed("max-players");
  }

  lemma JavaRulesOk()
    ensures FieldsOk(JAVA_RULES)
  {
    PlainIsWellFormed("pvp"); PlainIsWellFormed("hardcore");
    PlainIsWellFormed("white-list"); PlainIsWellFormed("online-mode");
  }

  lemma JavaRangesOk()
    ensures FieldsOk(JAVA_RANGES)
  {
    PlainIsWellFormed("spawn-protection"); PlainIsWellFormed("view-distance");
    PlainIsWellFormed("simulation-distance"); PlainIsWellFormed("allow-flight");
  }

  lemma JavaWorldOk()
    ensures FieldsOk(JAVA_WORLD)
  {
    PlainIsWellFormed("allow-nether"); PlainIsWellFormed("enable-command-block");
    PlainIsWellFormed("level-seed"); PlainIsWellFormed("level-name");
  }

  lemma JavaManagedOk()
    ensures FieldsOk(JAVA_MANAGED)
  {
    PlainIsWellFormed("server-port"); PlainIsWellFormed("server-ip");
    PlainIsWellFormed("rcon.port"); PlainIsWellFormed("query.port");
  }

  lemma JavaFieldsOk()
    ensures FieldsOk(JAVA_FIELDS)
  {
    JavaPlayOk(); JavaRulesOk(); JavaRangesOk(); JavaWorldOk(); JavaManagedOk();
  }

  lemma BedrockPlayOk()
    ensures FieldsOk(BEDROCK_PLAY)
  {
    OptionsOk();
    PlainIsWellFormed("server-name"); PlainIsWellFormed("gamemode");
    PlainIsWellFormed("difficulty"); PlainIsWellFormed("max-players");
  }

  lemma BedrockRulesOk()
    ensures FieldsOk(BEDROCK_RULES)
  {
    PlainIsWellFormed("allow-cheats"); PlainIsWellFormed("online-mode");
    PlainIsWellFormed("view-distance"); PlainIsWellFormed("tick-distance");
  }

  lemma BedrockWorldOk()
    ensures FieldsOk(BEDROCK_WORLD)
  {
    PlainIsWellFormed("player-idle-timeout"); PlainIsWellFormed("level-name");
    PlainIsWellFormed("level-seed"); PlainIsWellFormed("server-port");
  }

  lemma BedrockFieldsOk()
    ensures FieldsOk(BEDROCK_FIELDS)
  {
    BedrockPlayOk(); BedrockRulesOk(); BedrockWorldOk();
  }

  /** What reaches the file is well formed: no value starts a line of its own. */
  lemma TakenIsWellFormed(fields: seq<Field>, key: string, raw: string, parse: string -> Option<real>)
    requires FieldsOk(fields) && Taken(fields, key, raw, parse).Some?
    ensures WellFormed(key) && '\n' !in Taken(fields, key, raw, parse).value
  {
    var field := Editable(fields, key).value;
    assert FieldOk(field);
    if field.kind.Number? {
      DecimalReadsBack(Round(parse(raw).value));
    }
  }

  // ---------- A write ----------

  /** The key of an accepted change is a visible field's, and its value suits that field. */
  ghost predicate IsAllowed(fields: seq<Field>, x: (string, string)) {
    Editable(fields, x.0).Some? && Suits(Editable(fields, x.0).value.kind, x.1)
  }

  predicate Restarts(fields: seq<Field>, x: (string, string)) {
    Editable(fields, x.0).Some? && Editable(fields, x.0).value.restart
  }

  method NeedsRestart(fields: seq<Field>, accepted: Changes) returns (r: bool)
    ensures r <==> exists k :: 0 <= k < |accepted| && Restarts(fields, accepted[k])
  {
    r := false;
    for i := 0 to |accepted|
      invariant r <==> exists k :: 0 <= k < i && Restarts(fields, accepted[k])
    {
      var field := Editable(fields, accepted[i].0);
      if field.Some? && field.value.restart {
        r := true;
      }
    }
  }

  lemma AcceptedIsWellFormed(fields: seq<Field>, changes: Changes, parse: string -> Option<real>, accepted: Changes)
    requires FieldsOk(fields) && Distinct(accepted)
    requires forall x :: x in accepted ==> IsTaken(fields, changes, parse, x)
    ensures WellFormedChanges(accepted) && forall x :: x in accepted ==> IsAllowed(fields, x)
  {
    forall x | x in accepted ensures WellFormed(x.0) && '\n' !in x.1 && IsAllowed(fields, x) {
      var i :| 0 <= i < |changes| && changes[i].0 == x.0 && Taken(fields, x.0, changes[i].1, parse) == Some(x.1);
      TakenIsWellFormed(fields, x.0, changes[i].1, parse);
      AcceptedSuits(Editable(fields, x.0).value.kind, changes[i].1, parse);
    }
  }

  /** An accepted key reads as accepted unless the file has it twice, and any other key as before. */
  ghost predicate ReadsAs(original: string, accepted: Changes, updated: string, key: string) {
    Value(updated, key) ==
    if Has(accepted, key) && Once(Rows(Split(original)), key) then Some(Trim(Get(accepted, key)))
    else Value(original, key)
  }

  /**
   Whatever the customer sends and whatever the file holds, a key that is managed, unknown or
   rejected reads as before; an accepted one reads as accepted unless the file has it twice.
   */
  method WriteGameSettings(templateKey: string, changes: Changes, original: string, parse: string -> Option<real>)
    returns (updated: string, accepted: Changes, rejected: seq<string>, restart: bool)
    requires Distinct(changes)
    ensures forall x :: x in accepted <==> IsTaken(ProfileForTemplate(templateKey), changes, parse, x)
    ensures forall x :: x in accepted ==> IsAllowed(ProfileForTemplate(templateKey), x)
    ensures restart <==> exists k :: 0 <= k < |accepted| && Restarts(ProfileForTemplate(templateKey), accepted[k])
    ensures |accepted| + |rejected| == |changes| && WellFormedChanges(accepted)
    ensures updated == NewText(original, accepted)
    ensures forall key: string :: ReadsAs(original, accepted, updated, key)
  {
    var fields := ProfileForTemplate(templateKey);
    JavaFieldsOk();
    BedrockFieldsOk();
    accepted, rejected := FilterChanges(fields, changes, parse);
    AcceptedIsWellFormed(fields, changes, parse, accepted);
    updated := ApplyProperties(original, accepted);
    restart := NeedsRestart(fields, accepted);
    forall key: string ensures ReadsAs(original, accepted, updated, key) { EditThenRead(original, accepted, key); }
  }
}
