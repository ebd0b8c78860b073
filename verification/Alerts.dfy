/**
 Alerts keyed and deduplicated: each pass of the worker opens those whose condition holds and resolves
 those it decides about whose condition does not, and each opening is notified once.
 */
module Alerts {
  datatype Severity = Info | Warning | Critical

  /** A row of the alert table; titles and details are not modelled. */
  datatype Alert = Alert(severity: Severity, open: bool)

  /** `sent` are the keys for which a notification was attempted, in order. */
  datatype Board = Board(alerts: map<string, Alert>, sent: seq<string>) {
    predicate IsOpen(key: string) {
      key in alerts && alerts[key].open
    }

    function Sent(key: string): nat {
      multiset(sent)[key]
    }
  }

  // ---------- What is true of the fleet ----------

  datatype Host = Host(id: string, online: bool, enabled: bool, total: int, reserved: int, overhead: int, servers: nat)

  datatype Guest = Guest(id: string, crashed: bool, suspended: bool)

  /** What a pass sees; `fragile` counts the archives kept on nodes, `bucket` says whether there is an object store. */
  datatype Fleet = Fleet(hosts: seq<Host>, guests: seq<Guest>, fragile: nat, bucket: bool)

  predicate DistinctIds(f: Fleet) {
    && (forall i, j :: 0 <= i < j < |f.hosts| ==> f.hosts[i].id != f.hosts[j].id)
    && (forall i, j :: 0 <= i < j < |f.guests| ==> f.guests[i].id != f.guests[j].id)
  }

  function DownKey(id: string): string {
    "node.down." + id
  }

  function CapacityKey(id: string): string {
    "node.capacity." + id
  }

  const CRASH_PREFIX := "server.crashed."

  function CrashKey(id: string): string {
    CRASH_PREFIX + id
  }

  const FRAGILE_KEY := "backups.node_only"

  predicate IsCrashKey(key: string) {
    CRASH_PREFIX <= key
  }

  lemma KeysDiffer(a: string, b: string)
    ensures DownKey(a) != CapacityKey(b)
    ensures !IsCrashKey(DownKey(a)) && !IsCrashKey(CapacityKey(a)) && !IsCrashKey(FRAGILE_KEY) && IsCrashKey(CrashKey(a))
    ensures DownKey(a) != FRAGILE_KEY && CapacityKey(a) != FRAGILE_KEY
    ensures a != b ==> DownKey(a) != DownKey(b) && CapacityKey(a) != CapacityKey(b) && CrashKey(a) != CrashKey(b)
  {
    assert DownKey(a)[5] == 'd' && CapacityKey(b)[5] == 'c' && CapacityKey(a)[5] == 'c';
    assert DownKey(a)[0] == 'n' && CapacityKey(a)[0] == 'n' && CRASH_PREFIX[0] == 's' && FRAGILE_KEY[0] == 'b';
    assert DownKey(a)[10..] == a && DownKey(b)[10..] == b;
    assert CapacityKey(a)[14..] == a && CapacityKey(b)[14..] == b;
    assert CrashKey(a)[15..] == a && CrashKey(b)[15..] == b;
  }

  /** Less than a tenth of the memory is left to sell. */
  predicate NearlyFull(h: Host) {
    h.enabled && h.total > 0 && (h.total - h.reserved - h.overhead) as real / h.total as real < 0.1
  }

  lemma TenthOf(free: real, total: real)
    requires total > 0.0
    ensures free / total < 0.1 <==> 10.0 * free < total
  {
    var q := free / total;
    assert q * total == free;
  }

  /** That is, in whole megabytes: ten times what is free is less than all there is. */
  lemma NearlyFullExactly(h: Host)
    ensures NearlyFull(h) <==> h.enabled && h.total > 0 && 10 * (h.total - h.reserved - h.overhead) < h.total
  {
    if h.total > 0 {
      TenthOf((h.total - h.reserved - h.overhead) as real, h.total as real);
    }
  }

  predicate Crashed(g: Guest) {
    g.crashed && !g.suspended
  }

  function DownLevel(h: Host): Severity {
    if h.servers > 0 then Critical else Warning
  }

  /** The fleet calls for an alert with this key and severity. */
  predicate CallsFor(f: Fleet, key: string, level: Severity) {
    || (exists i :: 0 <= i < |f.hosts| && key == DownKey(f.hosts[i].id) && !f.hosts[i].online && level == DownLevel(f.hosts[i]))
    || (exists i :: 0 <= i < |f.hosts| && key == CapacityKey(f.hosts[i].id) && NearlyFull(f.hosts[i]) && level == Warning)
    || (exists i :: 0 <= i < |f.guests| && key == CrashKey(f.guests[i].id) && Crashed(f.guests[i]) && level == Warning)
    || (key == FRAGILE_KEY && f.fragile > 0 && f.bucket && level == Info)
  }

  predicate Wanted(f: Fleet, key: string) {
    CallsFor(f, key, Info) || CallsFor(f, key, Warning) || CallsFor(f, key, Critical)
  }

  /** The keys a pass decides about: those of existing nodes, of all servers, and of the archives. */
  predicate Judged(f: Fleet, key: string) {
    || (exists i :: 0 <= i < |f.hosts| && (key == DownKey(f.hosts[i].id) || key == CapacityKey(f.hosts[i].id)))
    || IsCrashKey(key) || key == FRAGILE_KEY
  }

  // ---------- Opening and resolving ----------

  /** An alert that is open stays as it is, and nobody is notified again. */
  function Raise(b: Board, key: string, severity: Severity): Board {
    if b.IsOpen(key) then b else Board(b.alerts[key := Alert(severity, true)], b.sent + [key])
  }

  function Resolve(b: Board, key: string): Board {
    if b.IsOpen(key) then b.(alerts := b.alerts[key := b.alerts[key].(open := false)]) else b
  }

  /**
   From `b` to `c` exactly the `judged` keys were decided: the `wanted` ones are open and the others
   are not.  A key is notified once if it was closed and is open; an alert that was open keeps its row.
   */
  ghost predicate Effect(b: Board, judged: set<string>, wanted: map<string, Severity>, c: Board) {
    && wanted.Keys <= judged
    && (forall key :: key in judged ==> (c.IsOpen(key) <==> key in wanted))
    && (forall key :: key !in judged ==>
          (key in c.alerts <==> key in b.alerts) && (key in b.alerts ==> c.alerts[key] == b.alerts[key]))
    && (forall key :: key in wanted ==>
          c.alerts[key] == if b.IsOpen(key) then b.alerts[key] else Alert(wanted[key], true))
    && (forall key :: c.Sent(key) == b.Sent(key) + if key in wanted && !b.IsOpen(key) then 1 else 0)
  }

  lemma NoEffect(b: Board)
    ensures Effect(b, {}, map[], b)
  {
  }

  lemma RaiseEffect(b: Board, key: string, severity: Severity)
    ensures Effect(b, {key}, map[key := severity], Raise(b, key, severity))
  {
  }

  lemma ResolveEffect(b: Board, key: string)
    ensures Effect(b, {key}, map[], Resolve(b, key))
  {
  }

  lemma Effects(a: Board, judged: set<string>, wanted: map<string, Severity>, b: Board,
                more: set<string>, alarms: map<string, Severity>, c: Board)
    requires Effect(a, judged, wanted, b) && Effect(b, more, alarms, c) && judged !! more
    ensures Effect(a, judged + more, wanted + alarms, c)
  {
  }

  // ---------- The keys of a pass ----------

  function HostKeys(h: Host): set<string> {
    {DownKey(h.id), CapacityKey(h.id)}
  }

  function Alarm(key: string, level: Severity, condition: bool): map<string, Severity> {
    if condition then map[key := level] else map[]
  }

  function HostAlarms(h: Host): map<string, Severity> {
    Alarm(DownKey(h.id), DownLevel(h), !h.online) + Alarm(CapacityKey(h.id), Warning, NearlyFull(h))
  }

  function HostsKeys(hosts: seq<Host>, k: nat): (r: set<string>)
    requires k <= |hosts|
    ensures forall key :: key in r <==> exists i :: 0 <= i < k && key in HostKeys(hosts[i])
  {
    if k == 0 then {} else HostsKeys(hosts, k - 1) + HostKeys(hosts[k - 1])
  }

  function HostsAlarms(hosts: seq<Host>, k: nat): (r: map<string, Severity>)
    requires k <= |hosts|
    ensures forall i, key :: 0 <= i < k && key in HostAlarms(hosts[i]) ==> key in r
    ensures forall key :: key in r ==> exists i :: 0 <= i < k && key in HostAlarms(hosts[i]) && r[key] == HostAlarms(hosts[i])[key]
  {
    if k == 0 then map[] else HostsAlarms(hosts, k - 1) + HostAlarms(hosts[k - 1])
  }

  function Crashes(guests: seq<Guest>, k: nat): (r: map<string, Severity>)
    requires k <= |guests|
    ensures forall key :: key in r <==> exists i :: 0 <= i < k && Crashed(guests[i]) && key == CrashKey(guests[i].id)
    ensures forall key :: key in r ==> r[key] == Warning
  {
    if k == 0 then map[] else
      Crashes(guests, k - 1) + Alarm(CrashKey(guests[k - 1].id), Warning, Crashed(guests[k - 1]))
  }

  /** The pass, as a relation: what was decided, and that it was decided by what is true. */
  ghost predicate PassOver(f: Fleet, b: Board, c: Board) {
    && (forall key :: Judged(f, key) ==> (c.IsOpen(key) <==> Wanted(f, key)))
    && (forall key :: !Judged(f, key) ==>
          (key in c.alerts <==> key in b.alerts) && (key in b.alerts ==> c.alerts[key] == b.alerts[key]))
    && (forall key :: Wanted(f, key) && c.IsOpen(key) ==>
          if b.IsOpen(key) then c.alerts[key] == b.alerts[key] else CallsFor(f, key, c.alerts[key].severity))
    && (forall key :: c.Sent(key) == b.Sent(key) + if Wanted(f, key) && !b.IsOpen(key) then 1 else 0)
  }

  class Desk {
    var alerts: map<string, Alert>
    var sent: seq<string>

    constructor ()
      ensures View() == Board(map[], [])
    {
      alerts, sent := map[], [];
    }

    function View(): Board
      reads this
    {
      Board(alerts, sent)
    }

    method RaiseAlert(key: string, severity: Severity)
      modifies this
      ensures View() == Raise(old(View()), key, severity)
    {
      if key in alerts && alerts[key].open {
        return;
      }
      alerts := alerts[key := Alert(severity, true)];
      sent := sent + [key];
    }

    method ResolveAlert(key: string)
      modifies this`alerts
      ensures View() == Resolve(old(View()), key)
    {
      if key !in alerts || !alerts[key].open {
        return;
      }
      alerts := alerts[key := alerts[key].(open := false)];
    }

    /** One check: the alert is open afterwards exactly when the condition holds. */
    method Check(key: string, severity: Severity, condition: bool)
      modifies this
      ensures Effect(old(View()), {key}, Alarm(key, severity, condition), View())
    {
      RaiseEffect(View(), key, severity);
      ResolveEffect(View(), key);
      if condition {
        RaiseAlert(key, severity);
      } else {
        ResolveAlert(key);
      }
    }

    method CheckHost(h: Host)
      modifies this
      ensures Effect(old(View()), HostKeys(h), HostAlarms(h), View())
    {
      KeysDiffer(h.id, h.id);
      ghost var before := View();
      Check(DownKey(h.id), DownLevel(h), !h.online);
      ghost var between := View();
      Check(CapacityKey(h.id), Warning, NearlyFull(h));
      Effects(before, {DownKey(h.id)}, Alarm(DownKey(h.id), DownLevel(h), !h.online), between,
              {CapacityKey(h.id)}, Alarm(CapacityKey(h.id), Warning, NearlyFull(h)), View());
      assert {DownKey(h.id)} + {CapacityKey(h.id)} == HostKeys(h);
    }

    method CheckHosts(hosts: seq<Host>)
      requires forall i, j :: 0 <= i < j < |hosts| ==> hosts[i].id != hosts[j].id
      modifies this
      ensures Effect(old(View()), HostsKeys(hosts, |hosts|), HostsAlarms(hosts, |hosts|), View())
    {
      ghost var before := View();
      NoEffect(before);
      for k := 0 to |hosts|
        invariant Effect(before, HostsKeys(hosts, k), HostsAlarms(hosts, k), View())
      {
        ghost var between := View();
        HostsDiffer(hosts, k);
        CheckHost(hosts[k]);
        Effects(before, HostsKeys(hosts, k), HostsAlarms(hosts, k), between,
                HostKeys(hosts[k]), HostAlarms(hosts[k]), View());
      }
    }

    /** Crashed servers are raised; the keys that were raised are remembered. */
    method RaiseCrashes(guests: seq<Guest>) returns (raised: set<string>)
      requires forall i, j :: 0 <= i < j < |guests| ==> guests[i].id != guests[j].id
      modifies this
      ensures raised == Crashes(guests, |guests|).Keys
      ensures Effect(old(View()), raised, Crashes(guests, |guests|), View())
    {
      ghost var before := View();
      NoEffect(before);
      raised := {};
      for k := 0 to |guests|
        invariant raised == Crashes(guests, k).Keys && Effect(before, raised, Crashes(guests, k), View())
      {
        if Crashed(guests[k]) {
          ghost var between := View();
          var key := CrashKey(guests[k].id);
          GuestsDiffer(guests, k);
          RaiseEffect(between, key, Warning);
          RaiseAlert(key, Warning);
          Effects(before, raised, Crashes(guests, k), between, {key}, map[key := Warning], View());
          raised := raised + {key};
        }
      }
    }

    /** Crash alerts that were not raised again are resolved. */
    method ResolveCrashes(raised: set<string>) returns (ghost resolved: set<string>)
      modifies this
      ensures forall key :: key in resolved ==> IsCrashKey(key) && key !in raised
      ensures Effect(old(View()), resolved, map[], View())
      ensures forall key :: IsCrashKey(key) && key !in raised ==> !View().IsOpen(key)
    {
      ghost var before := View();
      NoEffect(before);
      resolved := {};
      var open := set key | key in alerts && alerts[key].open;
      while open != {}
        invariant forall key :: key in resolved ==> IsCrashKey(key) && key !in raised
        invariant Effect(before, resolved, map[], View()) && open !! resolved
        invariant forall key :: IsCrashKey(key) && key !in raised && View().IsOpen(key) ==> key in open
        decreases open
      {
        var key :| key in open;
        open := open - {key};
        if IsCrashKey(key) && key !in raised {
          ghost var between := View();
          ResolveEffect(between, key);
          ResolveAlert(key);
          Effects(before, resolved, map[], between, {key}, map[], View());
          resolved := resolved + {key};
        }
      }
    }

    /** The open alerts are a live picture: of what a pass decides about, exactly what is true is open. */
    method EvaluateAlerts(f: Fleet)
      requires DistinctIds(f)
      modifies this
      ensures PassOver(f, old(View()), View())
      ensures forall i :: 0 <= i < |f.hosts| ==> HostShown(f.hosts[i], old(View()), View())
      ensures forall i :: 0 <= i < |f.guests| ==>
        (View().IsOpen(CrashKey(f.guests[i].id)) <==> f.guests[i].crashed && !f.guests[i].suspended)
      ensures View().IsOpen(FRAGILE_KEY) <==> f.fragile > 0 && f.bucket
    {
      ghost var b0 := View();
      CheckHosts(f.hosts);
      ghost var b1 := View();
      var raised := RaiseCrashes(f.guests);
      ghost var b2 := View();
      Check(FRAGILE_KEY, Info, f.fragile > 0 && f.bucket);
      ghost var b3 := View();
      ghost var resolved := ResolveCrashes(raised);
      AllChecks(f, b0, b1, b2, b3, resolved, View());
      PassShows(f, b0, View());
    }
  }

  /** What a pass makes of one node: in terms of its row alone. */
  ghost predicate HostShown(h: Host, b: Board, c: Board) {
    var (down, capacity) := (DownKey(h.id), CapacityKey(h.id));
    && (c.IsOpen(down) <==> !h.online)
    && (c.IsOpen(capacity) <==> h.enabled && h.total > 0 && 10 * (h.total - h.reserved - h.overhead) < h.total)
    && (c.IsOpen(down) && !b.IsOpen(down) ==> c.alerts[down].severity == if h.servers == 0 then Warning else Critical)
    && (c.IsOpen(capacity) && !b.IsOpen(capacity) ==> c.alerts[capacity].severity == Warning)
  }

  lemma KeysNeverMeet()
    ensures forall a: string, b: string :: DownKey(a) != CapacityKey(b)
    ensures forall a: string, b: string :: DownKey(a) != CrashKey(b) && CapacityKey(a) != CrashKey(b)
    ensures forall a: string :: DownKey(a) != FRAGILE_KEY && CapacityKey(a) != FRAGILE_KEY && CrashKey(a) != FRAGILE_KEY
  {
    forall a: string, b: string
      ensures DownKey(a) != CapacityKey(b) && DownKey(a) != CrashKey(b) && CapacityKey(a) != CrashKey(b)
    {
      KeysDiffer(a, b);
      KeysDiffer(b, a);
    }
    forall a: string
      ensures DownKey(a) != FRAGILE_KEY && CapacityKey(a) != FRAGILE_KEY && CrashKey(a) != FRAGILE_KEY
    {
      KeysDiffer(a, a);
    }
  }

  lemma KeysAreOnesOwn(a: string, b: string)
    requires DownKey(a) == DownKey(b) || CapacityKey(a) == CapacityKey(b) || CrashKey(a) == CrashKey(b)
    ensures a == b
  {
    if a != b { KeysDiffer(a, b); }
  }

  lemma DownIsWanted(f: Fleet, i: nat, level: Severity)
    requires DistinctIds(f) && i < |f.hosts|
    ensures CallsFor(f, DownKey(f.hosts[i].id), level) <==>
      !f.hosts[i].online && level == if f.hosts[i].servers == 0 then Warning else Critical
  {
    KeysNeverMeet();
    forall j | 0 <= j < |f.hosts| && DownKey(f.hosts[i].id) == DownKey(f.hosts[j].id) ensures j == i {
      KeysAreOnesOwn(f.hosts[i].id, f.hosts[j].id);
    }
  }

  lemma CapacityIsWanted(f: Fleet, i: nat, level: Severity)
    requires DistinctIds(f) && i < |f.hosts|
    ensures CallsFor(f, CapacityKey(f.hosts[i].id), level) <==> NearlyFull(f.hosts[i]) && level == Warning
  {
    KeysNeverMeet();
    forall j | 0 <= j < |f.hosts| && CapacityKey(f.hosts[i].id) == CapacityKey(f.hosts[j].id) ensures j == i {
      KeysAreOnesOwn(f.hosts[i].id, f.hosts[j].id);
    }
  }

  lemma CrashIsWanted(f: Fleet, i: nat, level: Severity)
    requires DistinctIds(f) && i < |f.guests|
    ensures CallsFor(f, CrashKey(f.guests[i].id), level) <==>
      f.guests[i].crashed && !f.guests[i].suspended && level == Warning
  {
    KeysNeverMeet();
    forall j | 0 <= j < |f.guests| && CrashKey(f.guests[i].id) == CrashKey(f.guests[j].id) ensures j == i {
      KeysAreOnesOwn(f.guests[i].id, f.guests[j].id);
    }
  }

  lemma FragileIsWanted(f: Fleet, level: Severity)
    ensures CallsFor(f, FRAGILE_KEY, level) <==> f.fragile > 0 && f.bucket && level == Info
  {
    KeysNeverMeet();
  }

  lemma DownIsShown(f: Fleet, i: nat, b: Board, c: Board)
    requires DistinctIds(f) && i < |f.hosts| && PassOver(f, b, c)
    ensures var (h, key) := (f.hosts[i], DownKey(f.hosts[i].id));
      && (c.IsOpen(key) <==> !h.online)
      && (c.IsOpen(key) && !b.IsOpen(key) ==> c.alerts[key].severity == if h.servers == 0 then Warning else Critical)
  {
    var key := DownKey(f.hosts[i].id);
    DownIsWanted(f, i, Info);
    DownIsWanted(f, i, Warning);
    DownIsWanted(f, i, Critical);
    assert Judged(f, key);
  }

  lemma CapacityIsShown(f: Fleet, i: nat, b: Board, c: Board)
    requires DistinctIds(f) && i < |f.hosts| && PassOver(f, b, c)
    ensures var (h, key) := (f.hosts[i], CapacityKey(f.hosts[i].id));
      && (c.IsOpen(key) <==> h.enabled && h.total > 0 && 10 * (h.total - h.reserved - h.overhead) < h.total)
      && (c.IsOpen(key) && !b.IsOpen(key) ==> c.alerts[key].severity == Warning)
  {
    var key := CapacityKey(f.hosts[i].id);
    CapacityIsWanted(f, i, Info);
    CapacityIsWanted(f, i, Warning);
    CapacityIsWanted(f, i, Critical);
    NearlyFullExactly(f.hosts[i]);
    assert Judged(f, key);
  }

  lemma CrashIsShown(f: Fleet, i: nat, b: Board, c: Board)
    requires DistinctIds(f) && i < |f.guests| && PassOver(f, b, c)
    ensures c.IsOpen(CrashKey(f.guests[i].id)) <==> f.guests[i].crashed && !f.guests[i].suspended
  {
    CrashIsWanted(f, i, Info);
    CrashIsWanted(f, i, Warning);
    CrashIsWanted(f, i, Critical);
    assert IsCrashKey(CrashKey(f.guests[i].id));
    assert Judged(f, CrashKey(f.guests[i].id));
  }

  lemma PassShows(f: Fleet, b: Board, c: Board)
    requires DistinctIds(f) && PassOver(f, b, c)
    ensures forall i :: 0 <= i < |f.hosts| ==> HostShown(f.hosts[i], b, c)
    ensures forall i :: 0 <= i < |f.guests| ==>
      (c.IsOpen(CrashKey(f.guests[i].id)) <==> f.guests[i].crashed && !f.guests[i].suspended)
    ensures c.IsOpen(FRAGILE_KEY) <==> f.fragile > 0 && f.bucket
  {
    forall i | 0 <= i < |f.hosts| ensures HostShown(f.hosts[i], b, c) {
      DownIsShown(f, i, b, c);
      CapacityIsShown(f, i, b, c);
    }
    forall i | 0 <= i < |f.guests|
      ensures c.IsOpen(CrashKey(f.guests[i].id)) <==> f.guests[i].crashed && !f.guests[i].suspended
    {
      CrashIsShown(f, i, b, c);
    }
    FragileIsWanted(f, Info);
    FragileIsWanted(f, Warning);
    FragileIsWanted(f, Critical);
    assert Judged(f, FRAGILE_KEY);
  }

  lemma HostsDiffer(hosts: seq<Host>, k: nat)
    requires k < |hosts| && forall i, j :: 0 <= i < j < |hosts| ==> hosts[i].id != hosts[j].id
    ensures HostsKeys(hosts, k) !! HostKeys(hosts[k])
  {
    forall i | 0 <= i < k ensures HostKeys(hosts[i]) !! HostKeys(hosts[k]) {
      KeysDiffer(hosts[i].id, hosts[k].id);
      KeysDiffer(hosts[k].id, hosts[i].id);
    }
  }

  lemma GuestsDiffer(guests: seq<Guest>, k: nat)
    requires k < |guests| && forall i, j :: 0 <= i < j < |guests| ==> guests[i].id != guests[j].id
    ensures CrashKey(guests[k].id) !in Crashes(guests, k)
  {
    forall i | 0 <= i < k ensures CrashKey(guests[i].id) != CrashKey(guests[k].id) {
      KeysDiffer(guests[i].id, guests[k].id);
    }
  }

  function FragileAlarm(f: Fleet): map<string, Severity> {
    Alarm(FRAGILE_KEY, Info, f.fragile > 0 && f.bucket)
  }

  function AllAlarms(f: Fleet): map<string, Severity> {
    HostsAlarms(f.hosts, |f.hosts|) + Crashes(f.guests, |f.guests|) + FragileAlarm(f)
  }

  lemma KeysApart(f: Fleet)
    ensures forall key :: key in HostsKeys(f.hosts, |f.hosts|) ==> !IsCrashKey(key) && key != FRAGILE_KEY
    ensures forall key :: key in Crashes(f.guests, |f.guests|) ==> IsCrashKey(key)
    ensures !IsCrashKey(FRAGILE_KEY)
  {
    KeysDiffer("", "");
    forall key | key in HostsKeys(f.hosts, |f.hosts|) ensures !IsCrashKey(key) && key != FRAGILE_KEY {
      var i :| 0 <= i < |f.hosts| && key in HostKeys(f.hosts[i]);
      KeysDiffer(f.hosts[i].id, f.hosts[i].id);
    }
    forall key | key in Crashes(f.guests, |f.guests|) ensures IsCrashKey(key) {
      var i :| 0 <= i < |f.guests| && Crashed(f.guests[i]) && key == CrashKey(f.guests[i].id);
      KeysDiffer(f.guests[i].id, f.guests[i].id);
    }
  }

  lemma HostAlarmIsCalledFor(f: Fleet, i: nat, key: string)
    requires i < |f.hosts| && key in HostAlarms(f.hosts[i])
    ensures CallsFor(f, key, HostAlarms(f.hosts[i])[key])
  {
    KeysDiffer(f.hosts[i].id, f.hosts[i].id);
  }

  lemma CrashIsCalledFor(f: Fleet, key: string)
    requires key in Crashes(f.guests, |f.guests|)
    ensures CallsFor(f, key, Warning)
  {
    var i :| 0 <= i < |f.guests| && Crashed(f.guests[i]) && key == CrashKey(f.guests[i].id);
  }

  lemma AlarmIsCalledFor(f: Fleet, key: string)
    requires key in AllAlarms(f)
    ensures CallsFor(f, key, AllAlarms(f)[key])
  {
    var hosts, crashes := HostsAlarms(f.hosts, |f.hosts|), Crashes(f.guests, |f.guests|);
    if key in FragileAlarm(f) {
      assert AllAlarms(f)[key] == Info;
    } else if key in crashes {
      assert AllAlarms(f)[key] == Warning;
      CrashIsCalledFor(f, key);
    } else {
      assert AllAlarms(f)[key] == hosts[key];
      var i :| 0 <= i < |f.hosts| && key in HostAlarms(f.hosts[i]) && hosts[key] == HostAlarms(f.hosts[i])[key];
      HostAlarmIsCalledFor(f, i, key);
    }
  }

  lemma CalledForIsAlarm(f: Fleet, key: string, level: Severity)
    requires CallsFor(f, key, level)
    ensures key in AllAlarms(f)
  {
    if i :| 0 <= i < |f.hosts| && key == DownKey(f.hosts[i].id) && !f.hosts[i].online {
      assert key in HostAlarms(f.hosts[i]);
    } else if i :| 0 <= i < |f.hosts| && key == CapacityKey(f.hosts[i].id) && NearlyFull(f.hosts[i]) {
      assert key in HostAlarms(f.hosts[i]);
    }
  }

  lemma AllKeys(f: Fleet)
    ensures forall key :: Wanted(f, key) <==> key in AllAlarms(f)
    ensures forall key :: key in AllAlarms(f) ==> CallsFor(f, key, AllAlarms(f)[key])
    ensures forall key :: Judged(f, key) <==>
      key in HostsKeys(f.hosts, |f.hosts|) || IsCrashKey(key) || key == FRAGILE_KEY
  {
    forall key | Wanted(f, key) ensures key in AllAlarms(f) {
      var level :| CallsFor(f, key, level);
      CalledForIsAlarm(f, key, level);
    }
    forall key | key in AllAlarms(f) ensures CallsFor(f, key, AllAlarms(f)[key]) && Wanted(f, key) {
      AlarmIsCalledFor(f, key);
      match AllAlarms(f)[key] case Info => case Warning => case Critical =>
    }
  }

  lemma FourEffects(b0: Board, b1: Board, b2: Board, b3: Board, b4: Board, hosts: set<string>,
                    hostAlarms: map<string, Severity>, crashes: map<string, Severity>,
                    fragile: map<string, Severity>, resolved: set<string>)
    requires Effect(b0, hosts, hostAlarms, b1) && Effect(b1, crashes.Keys, crashes, b2)
    requires Effect(b2, {FRAGILE_KEY}, fragile, b3) && Effect(b3, resolved, map[], b4)
    requires hosts !! crashes.Keys !! {FRAGILE_KEY} !! resolved
    ensures Effect(b0, hosts + crashes.Keys + {FRAGILE_KEY} + resolved, hostAlarms + crashes + fragile, b4)
  {
    Effects(b0, hosts, hostAlarms, b1, crashes.Keys, crashes, b2);
    Effects(b0, hosts + crashes.Keys, hostAlarms + crashes, b2, {FRAGILE_KEY}, fragile, b3);
    Effects(b0, hosts + crashes.Keys + {FRAGILE_KEY}, hostAlarms + crashes + fragile, b3, resolved, map[], b4);
    assert hostAlarms + crashes + fragile + map[] == hostAlarms + crashes + fragile;
  }

  /** The four checks of a pass do not get in each other's way. */
  lemma EffectIsPass(f: Fleet, b: Board, judged: set<string>, c: Board)
    requires Effect(b, judged, AllAlarms(f), c)
    requires forall key :: key in judged ==> Judged(f, key)
    requires forall key :: Judged(f, key) && key !in judged ==> IsCrashKey(key) && !c.IsOpen(key)
    ensures PassOver(f, b, c)
  {
    AllKeys(f);
  }

  lemma AllChecks(f: Fleet, b0: Board, b1: Board, b2: Board, b3: Board, resolved: set<string>, b4: Board)
    requires Effect(b0, HostsKeys(f.hosts, |f.hosts|), HostsAlarms(f.hosts, |f.hosts|), b1)
    requires Effect(b1, Crashes(f.guests, |f.guests|).Keys, Crashes(f.guests, |f.guests|), b2)
    requires Effect(b2, {FRAGILE_KEY}, FragileAlarm(f), b3) && Effect(b3, resolved, map[], b4)
    requires forall key :: key in resolved ==> IsCrashKey(key) && key !in Crashes(f.guests, |f.guests|)
    requires forall key :: IsCrashKey(key) && key !in Crashes(f.guests, |f.guests|) ==> !b4.IsOpen(key)
    ensures PassOver(f, b0, b4)
  {
    var hosts, crashes := HostsKeys(f.hosts, |f.hosts|), Crashes(f.guests, |f.guests|);
    KeysApart(f);
    FourEffects(b0, b1, b2, b3, b4, hosts, HostsAlarms(f.hosts, |f.hosts|), crashes, FragileAlarm(f), resolved);
    AllKeys(f);
    EffectIsPass(f, b0, hosts + crashes.Keys + {FRAGILE_KEY} + resolved, b4);
  }

  // ---------- Runs ----------

  /** Between passes an administrator may acknowledge an alert. */
  datatype Event = Pass(f: Fleet) | Acknowledge(key: string)

  ghost predicate Follows(b: Board, e: Event, c: Board) {
    match e
    case Pass(f) => PassOver(f, b, c)
    case Acknowledge(key) => c == Resolve(b, key)
  }

  ghost predicate IsRun(boards: seq<Board>, es: seq<Event>) {
    |boards| == |es| + 1 && forall i :: 0 <= i < |es| ==> Follows(boards[i], es[i], boards[i + 1])
  }

  /** How often a key went from closed to open up to board `k`. */
  ghost function Openings(boards: seq<Board>, key: string, k: nat): nat
    requires k < |boards|
  {
    if k == 0 then 0
    else Openings(boards, key, k - 1) + if !boards[k - 1].IsOpen(key) && boards[k].IsOpen(key) then 1 else 0
  }

  lemma WantedIsJudged(f: Fleet, key: string)
    requires Wanted(f, key)
    ensures Judged(f, key)
  {
    AllKeys(f);
    KeysApart(f);
    var level :| CallsFor(f, key, level);
    if i :| 0 <= i < |f.guests| && key == CrashKey(f.guests[i].id) {
      KeysDiffer(f.guests[i].id, f.guests[i].id);
    }
  }

  /** Over any run of passes and acknowledgements a key is notified once for each time it opens, and never otherwise. */
  lemma {:induction false} NotifiedPerOpening(boards: seq<Board>, es: seq<Event>, key: string, k: nat)
    requires IsRun(boards, es) && k < |boards|
    ensures boards[k].Sent(key) == boards[0].Sent(key) + Openings(boards, key, k)
  {
    if k != 0 {
      NotifiedPerOpening(boards, es, key, k - 1);
      assert Follows(boards[k - 1], es[k - 1], boards[k]);
      if es[k - 1].Pass? && Wanted(es[k - 1].f, key) {
        WantedIsJudged(es[k - 1].f, key);
      }
    }
  }

  ghost predicate Unchanged(b: Board, c: Board, key: string) {
    b.IsOpen(key) && c.IsOpen(key) && c.alerts[key] == b.alerts[key] && c.Sent(key) == b.Sent(key)
  }

  lemma UnchangedTwice(a: Board, b: Board, c: Board, key: string)
    requires Unchanged(a, b, key) && Unchanged(b, c, key)
    ensures Unchanged(a, c, key)
  {
  }

  /** A pass that finds the condition of an open alert true. */
  ghost predicate Confirms(e: Event, key: string) {
    e.Pass? && Wanted(e.f, key)
  }

  lemma StillTrue(boards: seq<Board>, es: seq<Event>, key: string, k: nat)
    requires IsRun(boards, es) && k < |es| && Confirms(es[k], key) && boards[k].IsOpen(key)
    ensures Unchanged(boards[k], boards[k + 1], key)
  {
    assert Follows(boards[k], es[k], boards[k + 1]);
    WantedIsJudged(es[k].f, key);
  }

  /** An alert that nobody acknowledges stays open while every pass finds its condition true: one alert, one notice. */
  lemma {:induction false} OneNoticeWhileTrue(boards: seq<Board>, es: seq<Event>, key: string, k: nat)
    requires IsRun(boards, es) && k < |boards| && boards[0].IsOpen(key)
    requires forall i :: 0 <= i < k ==> Confirms(es[i], key)
    ensures Unchanged(boards[0], boards[k], key)
    decreases k
  {
    if k != 0 {
      var before := k - 1;
      OneNoticeWhileTrue(boards, es, key, before);
      assert boards[before].IsOpen(key) && Confirms(es[before], key);
      StillTrue(boards, es, key, before);
      UnchangedTwice(boards[0], boards[before], boards[k], key);
    }
  }

  /** The alerts of a node that was deleted are not part of the picture: they stay as they were until acknowledged. */
  lemma {:induction false} DeletedNodeLingers(boards: seq<Board>, es: seq<Event>, key: string, k: nat)
    requires IsRun(boards, es) && k < |boards| && boards[0].IsOpen(key)
    requires forall i :: 0 <= i < |es| ==> if es[i].Pass? then !Judged(es[i].f, key) else es[i].key != key
    ensures boards[k].IsOpen(key)
  {
    if k != 0 {
      DeletedNodeLingers(boards, es, key, k - 1);
      assert Follows(boards[k - 1], es[k - 1], boards[k]);
    }
  }
}
