/**
 The bounded fast-flap table of the backbone listener: short connections are
 counted per remote IP, and an IP over its grace is rejected for a block time.

 The table is shared and mutable; its operations are specified by functions on
 the entry map. The lemmas are about whole runs of one listener under one
 policy. Every operation reads the monotone clock before it gets the lock, so
 operations may be applied in another order than their readings. Times are
 nanoseconds.
 */
module FastFlap {
  import opened Basics

  const U64_MAX: nat := 0xFFFF_FFFF_FFFF_FFFF

  type Ip = nat

  datatype Policy = Policy(enabled: bool, threshold: nat, grace: nat, blockTime: nat)

  datatype Entry = Entry(lastFlap: nat, flaps: nat)

  type Table = map<Ip, Entry>

  function Since(now: nat, earlier: nat): nat {
    if now >= earlier then now - earlier else 0
  }

  function Bump(flaps: nat): nat {
    if flaps < U64_MAX then flaps + 1 else U64_MAX
  }

  function Pruned(t: Table, now: nat, p: Policy): Table {
    map ip | ip in t && Since(now, t[ip].lastFlap) <= p.blockTime :: t[ip]
  }

  predicate Rejects(t: Table, ip: Ip, now: nat, p: Policy) {
    p.enabled && ip in t && Since(now, t[ip].lastFlap) <= p.blockTime && t[ip].flaps > p.grace
  }

  function Admitted(t: Table, capacity: nat, ip: Ip, now: nat, p: Policy): Table {
    if !p.enabled then t
    else if ip in t then (if Since(now, t[ip].lastFlap) > p.blockTime then t - {ip} else t)
    else if |t| >= capacity then Pruned(t, now, p)
    else t
  }

  predicate IsFlap(started: nat, now: nat, p: Policy) {
    p.enabled && Since(now, started) < p.threshold
  }

  // Whether a short disconnect leaves a trace: a full table declines new IPs.
  predicate Tracks(t: Table, capacity: nat, ip: Ip, now: nat, p: Policy) {
    ip in t || |Room(t, capacity, now, p)| < capacity
  }

  // A full table gives up its expired entries before it tracks another IP.
  function Room(t: Table, capacity: nat, now: nat, p: Policy): Table {
    if |t| >= capacity then Pruned(t, now, p) else t
  }

  function Flapped(t: Table, capacity: nat, ip: Ip, now: nat, p: Policy): Table {
    if ip in t then t[ip := Entry(now, Bump(t[ip].flaps))]
    else
      var room := Room(t, capacity, now, p);
      if |room| >= capacity then room else room[ip := Entry(now, 1)]
  }

  function Disconnected(t: Table, capacity: nat, ip: Ip, started: nat, now: nat, p: Policy): Table {
    if IsFlap(started, now, p) then Flapped(t, capacity, ip, now, p) else t
  }

  function Blocked(t: Table, p: Policy): set<Ip> {
    set ip | ip in t && t[ip].flaps > p.grace
  }

  /** Without an enabled policy nothing is rejected, expired or counted. */
  lemma DisabledPolicyIsInert(t: Table, capacity: nat, ip: Ip, started: nat, now: nat, p: Policy)
    requires !p.enabled
    ensures !Rejects(t, ip, now, p)
    ensures Admitted(t, capacity, ip, now, p) == t && Disconnected(t, capacity, ip, started, now, p) == t
  {
  }

  class FastFlapTable {
    var entries: Table
    const capacity: nat

    constructor (capacity: nat)
      ensures entries == map[] && this.capacity == capacity
    {
      entries := map[];
      this.capacity := capacity;
    }

    method PruneExpired(now: nat, p: Policy)
      modifies this
      ensures entries == Pruned(old(entries), now, p)
    {
      entries := map ip | ip in entries && Since(now, entries[ip].lastFlap) <= p.blockTime :: entries[ip];
    }

    // `Some(flaps)` is a rejection.
    method Admit(ip: Ip, now: nat, p: Policy) returns (rejected: Option<nat>)
      modifies this
      ensures rejected.Some? <==> Rejects(old(entries), ip, now, p)
      ensures rejected.Some? ==> rejected.value == old(entries)[ip].flaps
      ensures entries == Admitted(old(entries), capacity, ip, now, p)
    {
      if !p.enabled {
        return None;
      }
      if ip in entries {
        var entry := entries[ip];
        if Since(now, entry.lastFlap) > p.blockTime {
          entries := entries - {ip};
        } else if entry.flaps > p.grace {
          return Some(entry.flaps);
        }
      } else if |entries| >= capacity {
        PruneExpired(now, p);
      }
      return None;
    }

    method RecordDisconnect(ip: Ip, started: nat, now: nat, p: Policy)
      modifies this
      ensures entries == Disconnected(old(entries), capacity, ip, started, now, p)
    {
      if !p.enabled || Since(now, started) >= p.threshold {
        return;
      }
      if ip in entries {
        entries := entries[ip := Entry(now, Bump(entries[ip].flaps))];
        return;
      }
      if |entries| >= capacity {
        PruneExpired(now, p);
      }
      if |entries| >= capacity {
        return;
      }
      entries := entries[ip := Entry(now, 1)];
    }

    /** The reported number is the number of IPs that would be rejected at this
        instant, and reporting it changes no present or future decision. */
    method BlockedIps(now: nat, p: Policy) returns (count: nat)
      modifies this
      ensures p.enabled ==> entries == Pruned(old(entries), now, p)
      ensures !p.enabled ==> count == 0 && entries == old(entries)
      ensures count == |set ip | ip in old(entries) && Rejects(old(entries), ip, now, p)|
      ensures forall ip, later :: later >= now ==>
                (Rejects(entries, ip, later, p) <==> Rejects(old(entries), ip, later, p))
    {
      if !p.enabled {
        assert (set ip | ip in entries && Rejects(entries, ip, now, p)) == {};
        return 0;
      }
      PruneExpired(now, p);
      var blocked := Blocked(entries, p);
      assert blocked == set ip | ip in old(entries) && Rejects(old(entries), ip, now, p);
      return |blocked|;
    }
  }

  // The guard of one admitted connection. An explicit disconnect and the drop
  // of the guard both record; only the first does anything.
  class FastFlapConnection {
    const table: FastFlapTable
    const ip: Ip
    const policy: Policy
    var started: Option<nat>

    constructor (table: FastFlapTable, ip: Ip, policy: Policy, now: nat)
      ensures this.table == table && this.ip == ip && this.policy == policy && started == Some(now)
    {
      this.table, this.ip, this.policy, started := table, ip, policy, Some(now);
    }

    method RecordDisconnect(now: nat)
      modifies this, table
      ensures started.None?
      ensures table.entries == if old(started).Some?
                               then Disconnected(old(table.entries), table.capacity, ip, old(started).value, now, policy)
                               else old(table.entries)
    {
      if started.Some? {
        var begun := started.value;
        started := None;
        table.RecordDisconnect(ip, begun, now, policy);
      }
    }

    // Consumes the guard, so its drop follows at some later instant.
    method Disconnect(now: nat, dropped: nat)
      modifies this, table
      ensures started.None?
      ensures table.entries == if old(started).Some?
                               then Disconnected(old(table.entries), table.capacity, ip, old(started).value, now, policy)
                               else old(table.entries)
    {
      RecordDisconnect(now);
      RecordDisconnect(dropped);
    }
  }

  // ---------------------------------------------------------------------
  // Runs
  // ---------------------------------------------------------------------

  // One recorded short disconnect.
  datatype Flap = Flap(connection: nat, ip: Ip, time: nat)

  // `started` is the reading it was admitted with, `since` the instant at which it
  // was handed out.
  datatype Connection = Connection(ip: Ip, started: nat, since: nat, left: bool)

  // `flaps` and `born` are the history: every short disconnect that left a
  // trace, and the position at which each present entry was created.
  datatype Listener = Listener(
    policy: Policy, capacity: nat, now: nat, table: Table, connections: seq<Connection>,
    flaps: seq<Flap>, born: map<Ip, nat>)

  // Time passes, or an operation is applied with a clock reading it took before.
  datatype Action =
    | Tick(now: nat)
    | Accept(ip: Ip, at: nat)
    | Leave(connection: nat, at: nat)
    | Inspect(at: nat)

  function Start(policy: Policy, capacity: nat): Listener {
    Listener(policy, capacity, 0, map[], [], [], map[])
  }

  predicate Enabled(s: Listener, a: Action) {
    match a
    case Tick(now) => s.now <= now
    case Accept(_, at) => at <= s.now
    case Leave(id, at) => id < |s.connections| && s.connections[id].since <= at <= s.now
    case Inspect(at) => at <= s.now
  }

  // Births of the entries that are still present.
  function Surviving(born: map<Ip, nat>, t: Table): map<Ip, nat> {
    map ip | ip in born && ip in t :: born[ip]
  }

  function Apply(s: Listener, a: Action): Listener
    requires Enabled(s, a)
  {
    match a
    case Tick(now) => s.(now := now)
    case Inspect(at) =>
      var t := if s.policy.enabled then Pruned(s.table, at, s.policy) else s.table;
      s.(table := t, born := Surviving(s.born, t))
    case Accept(ip, at) =>
      var t := Admitted(s.table, s.capacity, ip, at, s.policy);
      s.(table := t, born := Surviving(s.born, t),
         connections := if Rejects(s.table, ip, at, s.policy) then s.connections
                        else s.connections + [Connection(ip, at, s.now, false)])
    case Leave(id, at) => ApplyLeave(s, id, at)
  }

  function ApplyLeave(s: Listener, id: nat, at: nat): Listener
    requires id < |s.connections|
  {
    var c := s.connections[id];
    if c.left then s
    else
      var t := Disconnected(s.table, s.capacity, c.ip, c.started, at, s.policy);
      var left := s.(connections := s.connections[id := c.(left := true)]);
      if !IsFlap(c.started, at, s.policy) then left.(table := t)
      else
        if !Tracks(s.table, s.capacity, c.ip, at, s.policy)
        then left.(table := t, born := Surviving(s.born, t))
        else
          left.(table := t, flaps := s.flaps + [Flap(id, c.ip, at)],
                born := if c.ip in s.table then s.born else Surviving(s.born, t)[c.ip := |s.flaps|])
  }

  function After(s: Listener, actions: seq<Action>): Option<Listener> {
    if actions == [] then Some(s)
    else
      var before := After(s, actions[..|actions| - 1]);
      if before.Some? && Enabled(before.value, actions[|actions| - 1])
      then Some(Apply(before.value, actions[|actions| - 1]))
      else None
  }

  ghost predicate Leads(s: Listener, actions: seq<Action>, t: Listener) {
    After(s, actions) == Some(t)
  }

  lemma Unwind(s: Listener, actions: seq<Action>, t: Listener) returns (before: Listener)
    requires Leads(s, actions, t) && actions != []
    ensures Leads(s, actions[..|actions| - 1], before)
    ensures Enabled(before, actions[|actions| - 1]) && t == Apply(before, actions[|actions| - 1])
  {
    before := After(s, actions[..|actions| - 1]).value;
  }

  // ---------------------------------------------------------------------
  // Counting
  // ---------------------------------------------------------------------

  function CountFlaps(flaps: seq<Flap>, ip: Ip): nat {
    if flaps == [] then 0
    else CountFlaps(flaps[..|flaps| - 1], ip) + if flaps[|flaps| - 1].ip == ip then 1 else 0
  }

  // The time of the latest flap of an IP.
  function LastTime(flaps: seq<Flap>, ip: Ip): Option<nat> {
    if flaps == [] then None
    else if flaps[|flaps| - 1].ip == ip then Some(flaps[|flaps| - 1].time)
    else LastTime(flaps[..|flaps| - 1], ip)
  }

  function Saturated(n: nat): nat {
    if n < U64_MAX then n else U64_MAX
  }

  predicate EntryInv(flaps: seq<Flap>, born: nat, ip: Ip, e: Entry) {
    && born < |flaps| && flaps[born].ip == ip
    && e.flaps == Saturated(CountFlaps(flaps[born..], ip))
    && LastTime(flaps, ip) == Some(e.lastFlap)
  }

  predicate EntriesInv(flaps: seq<Flap>, born: map<Ip, nat>, t: Table) {
    born.Keys == t.Keys && forall ip :: ip in t ==> EntryInv(flaps, born[ip], ip, t[ip])
  }

  predicate SizeInv(t: Table, capacity: nat, now: nat) {
    |t| <= capacity && forall ip :: ip in t ==> t[ip].lastFlap <= now
  }

  predicate TableInv(s: Listener) {
    EntriesInv(s.flaps, s.born, s.table) && SizeInv(s.table, s.capacity, s.now)
  }

  predicate ConnectionInv(s: Listener) {
    && (forall i :: 0 <= i < |s.flaps| ==>
          var id := s.flaps[i].connection;
          && id < |s.connections| && s.connections[id].left && s.connections[id].ip == s.flaps[i].ip
          && s.policy.enabled && s.connections[id].started <= s.flaps[i].time < s.connections[id].started + s.policy.threshold)
    && (forall id :: 0 <= id < |s.connections| ==> s.connections[id].started <= s.connections[id].since)
    && (forall i, j :: 0 <= i < j < |s.flaps| ==> s.flaps[i].connection != s.flaps[j].connection)
  }

  lemma SubmapSize(a: Table, b: Table)
    requires a.Keys <= b.Keys
    ensures |a| <= |b|
  {
    var rest := b.Keys - a.Keys;
    assert b.Keys == a.Keys + rest;
    assert |a.Keys + rest| == |a.Keys| + |rest|;
  }

  lemma AppendKeepsEntry(flaps: seq<Flap>, f: Flap, born: nat, ip: Ip, e: Entry)
    requires EntryInv(flaps, born, ip, e)
    ensures EntryInv(flaps + [f], born, ip, if f.ip == ip then Entry(f.time, Bump(e.flaps)) else e)
  {
    var longer := flaps + [f];
    var tail := longer[born..];
    assert tail[..|tail| - 1] == flaps[born..];
    assert longer[..|longer| - 1] == flaps;
  }

  lemma NewEntry(flaps: seq<Flap>, f: Flap)
    ensures EntryInv(flaps + [f], |flaps|, f.ip, Entry(f.time, 1))
  {
    var longer := flaps + [f];
    assert longer[|flaps|..] == [f];
    assert [f][..0] == [];
    assert CountFlaps([f], f.ip) == 1;
  }

  // Dropping entries keeps the rest.
  lemma ShrinkKeeps(flaps: seq<Flap>, born: map<Ip, nat>, t: Table, less: Table)
    requires EntriesInv(flaps, born, t)
    requires forall ip :: ip in less ==> ip in t && less[ip] == t[ip]
    ensures EntriesInv(flaps, Surviving(born, less), less)
  {
  }

  lemma UpdateKeeps(flaps: seq<Flap>, born: map<Ip, nat>, t: Table, f: Flap)
    requires EntriesInv(flaps, born, t) && f.ip in t
    ensures EntriesInv(flaps + [f], born, t[f.ip := Entry(f.time, Bump(t[f.ip].flaps))])
  {
    var u := t[f.ip := Entry(f.time, Bump(t[f.ip].flaps))];
    forall ip | ip in u
      ensures EntryInv(flaps + [f], born[ip], ip, u[ip])
    {
      AppendKeepsEntry(flaps, f, born[ip], ip, t[ip]);
    }
  }

  lemma InsertKeeps(flaps: seq<Flap>, born: map<Ip, nat>, t: Table, f: Flap)
    requires EntriesInv(flaps, born, t) && f.ip !in t
    ensures EntriesInv(flaps + [f], born[f.ip := |flaps|], t[f.ip := Entry(f.time, 1)])
  {
    var u, births := t[f.ip := Entry(f.time, 1)], born[f.ip := |flaps|];
    NewEntry(flaps, f);
    forall ip | ip in u
      ensures EntryInv(flaps + [f], births[ip], ip, u[ip])
    {
      if ip != f.ip {
        AppendKeepsEntry(flaps, f, born[ip], ip, t[ip]);
      }
    }
  }

  lemma RoomKeeps(t: Table, capacity: nat, now: nat, p: Policy)
    ensures |Room(t, capacity, now, p)| <= |t|
    ensures forall ip :: ip in Room(t, capacity, now, p) ==> ip in t && Room(t, capacity, now, p)[ip] == t[ip]
  {
    SubmapSize(Room(t, capacity, now, p), t);
  }

  // What the history says after one recorded flap, in each of the three cases.
  lemma FlappedEntries(flaps: seq<Flap>, born: map<Ip, nat>, t: Table, capacity: nat, f: Flap, p: Policy)
    requires EntriesInv(flaps, born, t)
    ensures var u := Flapped(t, capacity, f.ip, f.time, p);
            if f.ip in t then EntriesInv(flaps + [f], born, u)
            else if !Tracks(t, capacity, f.ip, f.time, p) then EntriesInv(flaps, Surviving(born, u), u)
            else EntriesInv(flaps + [f], Surviving(born, u)[f.ip := |flaps|], u)
  {
    if f.ip in t {
      UpdateKeeps(flaps, born, t, f);
    } else {
      var room := Room(t, capacity, f.time, p);
      RoomKeeps(t, capacity, f.time, p);
      ShrinkKeeps(flaps, born, t, room);
      if |room| < capacity {
        InsertKeeps(flaps, Surviving(born, room), room, f);
        SurvivingInsert(born, t, room, f);
      }
    }
  }

  lemma SurvivingInsert(born: map<Ip, nat>, t: Table, room: Table, f: Flap)
    requires born.Keys == t.Keys && f.ip !in t
    ensures Surviving(born, room[f.ip := Entry(f.time, 1)]) == Surviving(born, room)
  {
  }

  lemma FlappedSize(t: Table, capacity: nat, ip: Ip, at: nat, now: nat, p: Policy)
    requires SizeInv(t, capacity, now) && at <= now
    ensures SizeInv(Flapped(t, capacity, ip, at, p), capacity, now)
  {
    if ip in t {
      assert Flapped(t, capacity, ip, at, p).Keys == t.Keys;
    } else {
      RoomKeeps(t, capacity, at, p);
      var room := Room(t, capacity, at, p);
      assert room[ip := Entry(at, 1)].Keys == room.Keys + {ip};
    }
  }

  lemma LeaveKeepsTable(s: Listener, id: nat, at: nat)
    requires TableInv(s) && at <= s.now && id < |s.connections|
    ensures TableInv(ApplyLeave(s, id, at))
  {
    var c := s.connections[id];
    if !c.left && IsFlap(c.started, at, s.policy) {
      FlappedEntries(s.flaps, s.born, s.table, s.capacity, Flap(id, c.ip, at), s.policy);
      FlappedSize(s.table, s.capacity, c.ip, at, s.now, s.policy);
    }
  }

  lemma ApplyKeepsTable(s: Listener, a: Action)
    requires TableInv(s) && Enabled(s, a)
    ensures TableInv(Apply(s, a))
  {
    if a.Leave? {
      LeaveKeepsTable(s, a.connection, a.at);
    } else if !a.Tick? {
      var t := Apply(s, a).table;
      ShrinkKeeps(s.flaps, s.born, s.table, t);
      SubmapSize(t, s.table);
    }
  }

  lemma ApplyKeepsConnections(s: Listener, a: Action)
    requires ConnectionInv(s) && Enabled(s, a)
    ensures ConnectionInv(Apply(s, a))
  {
  }

  lemma {:induction false} NowGrows(s: Listener, actions: seq<Action>, t: Listener)
    requires Leads(s, actions, t)
    ensures s.now <= t.now && t.policy == s.policy && t.capacity == s.capacity
    decreases |actions|
  {
    if actions != [] {
      var before := Unwind(s, actions, t);
      NowGrows(s, actions[..|actions| - 1], before);
    }
  }

  lemma StartIsEmpty(policy: Policy, capacity: nat)
    ensures TableInv(Start(policy, capacity))
  {
  }

  lemma {:induction false} RunKeepsTable(policy: Policy, capacity: nat, actions: seq<Action>, s: Listener)
    requires Leads(Start(policy, capacity), actions, s)
    ensures TableInv(s)
    decreases |actions|
  {
    if actions == [] {
      StartIsEmpty(policy, capacity);
    } else {
      var before := Unwind(Start(policy, capacity), actions, s);
      RunKeepsTable(policy, capacity, actions[..|actions| - 1], before);
      ApplyKeepsTable(before, actions[|actions| - 1]);
    }
  }

  lemma {:induction false} RunKeepsConnections(policy: Policy, capacity: nat, actions: seq<Action>, s: Listener)
    requires Leads(Start(policy, capacity), actions, s)
    ensures ConnectionInv(s)
    decreases |actions|
  {
    if actions != [] {
      var before := Unwind(Start(policy, capacity), actions, s);
      RunKeepsConnections(policy, capacity, actions[..|actions| - 1], before);
      ApplyKeepsConnections(before, actions[|actions| - 1]);
    }
  }

  /** In every run the table stays within its capacity, each entry's count is the
      number of short disconnects recorded for its IP since the entry was created
      (saturating), and its time is that of the last of them. */
  lemma CountsMatchHistory(policy: Policy, capacity: nat, actions: seq<Action>, s: Listener, ip: Ip)
    requires Leads(Start(policy, capacity), actions, s)
    ensures |s.table| <= capacity
    ensures ip in s.table ==>
              && ip in s.born && s.born[ip] < |s.flaps| && s.flaps[s.born[ip]].ip == ip
              && s.table[ip].flaps == Saturated(CountFlaps(s.flaps[s.born[ip]..], ip))
              && LastTime(s.flaps, ip) == Some(s.table[ip].lastFlap)
  {
    RunKeepsTable(policy, capacity, actions, s);
    NowGrows(Start(policy, capacity), actions, s);
    assert ip in s.table ==> EntryInv(s.flaps, s.born[ip], ip, s.table[ip]);
  }

  /** No connection is ever counted twice, however often its disconnect and its
      drop are recorded, and it is counted for the IP it was admitted with. */
  lemma CountedOncePerConnection(policy: Policy, capacity: nat, actions: seq<Action>, s: Listener, i: nat, j: nat)
    requires Leads(Start(policy, capacity), actions, s) && i < j < |s.flaps|
    ensures s.flaps[i].connection != s.flaps[j].connection
    ensures s.flaps[i].connection < |s.connections| && s.connections[s.flaps[i].connection].ip == s.flaps[i].ip
  {
    RunKeepsConnections(policy, capacity, actions, s);
  }

  /** Only short disconnects count: every flap is the first leave of its connection,
      read less than the threshold after the reading it was admitted with. */
  lemma FlapsAreShort(policy: Policy, capacity: nat, actions: seq<Action>, s: Listener, i: nat)
    requires Leads(Start(policy, capacity), actions, s) && i < |s.flaps|
    ensures s.flaps[i].connection < |s.connections| && policy.enabled
    ensures var c := s.connections[s.flaps[i].connection];
            c.left && c.started <= s.flaps[i].time < c.started + policy.threshold
  {
    RunKeepsConnections(policy, capacity, actions, s);
    NowGrows(Start(policy, capacity), actions, s);
  }

  // Some entry's block has passed at a reading.
  predicate HasExpired(t: Table, at: nat, p: Policy) {
    exists ip :: ip in t && at > t[ip].lastFlap + p.blockTime
  }

  /** What a leave does, in every reachable state. One of a connection that has left
      before, or a threshold or more after its admission, or without an enabled
      policy, changes neither table nor history. A short first one of an IP that is
      tracked, or that finds room once expired entries are gone, is recorded once,
      with its reading; with no room it leaves no trace. */
  lemma LeaveCountsIff(policy: Policy, capacity: nat, actions: seq<Action>, s: Listener, id: nat, at: nat)
    requires Leads(Start(policy, capacity), actions, s) && Enabled(s, Leave(id, at))
    ensures var c, t := s.connections[id], Apply(s, Leave(id, at));
            var short := policy.enabled && !c.left && at < c.started + policy.threshold;
            && (!short ==> t.table == s.table && t.flaps == s.flaps)
            && (short && c.ip in s.table ==>
                  && t.flaps == s.flaps + [Flap(id, c.ip, at)]
                  && t.table == s.table[c.ip := Entry(at, Saturated(s.table[c.ip].flaps + 1))])
            && (short && c.ip !in s.table && (|s.table| < capacity || HasExpired(s.table, at, policy)) ==>
                  t.flaps == s.flaps + [Flap(id, c.ip, at)] && c.ip in t.table && t.table[c.ip] == Entry(at, 1))
            && (short && c.ip !in s.table && |s.table| >= capacity && !HasExpired(s.table, at, policy) ==>
                  t.flaps == s.flaps && t.table == s.table)
  {
    ReachableIsSound(policy, capacity, actions, s);
    RunKeepsConnections(policy, capacity, actions, s);
    NowGrows(Start(policy, capacity), actions, s);
    CountIsBounded(s, s.connections[id].ip);
    FlappedCases(s.table, capacity, s.connections[id].ip, at, policy);
    assert IsFlap(s.connections[id].started, at, policy) <==>
           policy.enabled && at < s.connections[id].started + policy.threshold;
    hide Leads, TableInv, ConnectionInv, Flapped, Tracks, HasExpired, IsFlap;
  }

  lemma FlappedCases(t: Table, capacity: nat, ip: Ip, at: nat, p: Policy)
    requires |t| <= capacity && (ip in t ==> t[ip].flaps <= U64_MAX)
    ensures var u := Flapped(t, capacity, ip, at, p);
            if ip in t then Tracks(t, capacity, ip, at, p) && u == t[ip := Entry(at, Saturated(t[ip].flaps + 1))]
            else if |t| < capacity || HasExpired(t, at, p)
            then Tracks(t, capacity, ip, at, p) && ip in u && u[ip] == Entry(at, 1)
            else !Tracks(t, capacity, ip, at, p) && u == t
  {
    PrunedSize(t, at, p);
    hide Pruned, HasExpired;
  }

  lemma PrunedSize(t: Table, at: nat, p: Policy)
    ensures HasExpired(t, at, p) ==> |Pruned(t, at, p)| < |t|
    ensures !HasExpired(t, at, p) ==> Pruned(t, at, p) == t
  {
    if ip :| ip in t && at > t[ip].lastFlap + p.blockTime {
      SubmapSize(Pruned(t, at, p), t - {ip});
      assert t.Keys == (t - {ip}).Keys + {ip};
    }
  }

  /** What an admission does: a connection is refused exactly if the policy is on and
      its IP has more flaps than the grace, counted since its entry was made, the last
      of them no longer ago than the block time. Any other is handed out with its
      reading. */
  lemma AdmissionMatchesHistory(policy: Policy, capacity: nat, actions: seq<Action>, s: Listener, ip: Ip, at: nat)
    requires Leads(Start(policy, capacity), actions, s) && Enabled(s, Accept(ip, at))
    ensures ip in s.table ==> ip in s.born && s.born[ip] <= |s.flaps| && LastTime(s.flaps, ip).Some?
    ensures var refused := policy.enabled && ip in s.table
                           && Saturated(CountFlaps(s.flaps[s.born[ip]..], ip)) > policy.grace
                           && at <= LastTime(s.flaps, ip).value + policy.blockTime;
            Apply(s, Accept(ip, at)).connections
            == if refused then s.connections else s.connections + [Connection(ip, at, s.now, false)]
  {
    CountsMatchHistory(policy, capacity, actions, s, ip);
    NowGrows(Start(policy, capacity), actions, s);
  }

  // ---------------------------------------------------------------------
  // Blocking lasts
  // ---------------------------------------------------------------------

  // An entry over grace whose last flap is no older than `since`.
  predicate Held(s: Listener, ip: Ip, since: nat) {
    && s.policy.enabled
    && ip in s.table && s.table[ip].lastFlap >= since
    && s.policy.grace < s.table[ip].flaps <= U64_MAX
  }

  // Whether an operation looks for expired entries at an IP's place: all of them
  // when it inspects or needs room, only its own IP when it asks for admission.
  predicate Expires(s: Listener, a: Action, ip: Ip) {
    match a
    case Tick(_) => false
    case Inspect(_) => true
    case Accept(other, _) => other == ip || (other !in s.table && |s.table| >= s.capacity)
    case Leave(id, _) => Records(s, a) && s.connections[id].ip !in s.table && |s.table| >= s.capacity
  }

  predicate Records(s: Listener, a: Action) {
    && a.Leave? && a.connection < |s.connections|
    && !s.connections[a.connection].left
    && IsFlap(s.connections[a.connection].started, a.at, s.policy)
  }

  // The reading of an operation fits an entry over grace: a record of that IP is
  // not older than the flap remembered, and an expiry not later than its block.
  predicate InOrder(s: Listener, a: Action, ip: Ip, since: nat)
    requires ip in s.table
  {
    && (Records(s, a) && s.connections[a.connection].ip == ip ==> since <= a.at)
    && (Expires(s, a, ip) ==> a.at <= s.table[ip].lastFlap + s.policy.blockTime)
  }

  lemma ApplyKeepsHeldIff(s: Listener, a: Action, ip: Ip, since: nat)
    requires Held(s, ip, since) && Enabled(s, a)
    ensures Held(Apply(s, a), ip, since) <==> InOrder(s, a, ip, since)
  {
  }

  ghost predicate HeldThroughout(s: Listener, actions: seq<Action>, ip: Ip, since: nat) {
    && After(s, actions).Some? && Held(After(s, actions).value, ip, since)
    && (actions == [] || HeldThroughout(s, actions[..|actions| - 1], ip, since))
  }

  ghost predicate AllInOrder(s: Listener, actions: seq<Action>, ip: Ip, since: nat) {
    actions == [] ||
      var before := After(s, actions[..|actions| - 1]);
      && AllInOrder(s, actions[..|actions| - 1], ip, since)
      && before.Some? && ip in before.value.table && InOrder(before.value, actions[|actions| - 1], ip, since)
  }

  /** Exactly: an entry over grace stays, with its last flap no older, through a
      whole run if and only if every operation of the run was in order for it. */
  lemma {:induction false} HeldIffInOrder(s: Listener, actions: seq<Action>, t: Listener, ip: Ip, since: nat)
    requires Leads(s, actions, t) && Held(s, ip, since)
    ensures HeldThroughout(s, actions, ip, since) <==> AllInOrder(s, actions, ip, since)
    decreases |actions|
  {
    if actions != [] {
      var before := Unwind(s, actions, t);
      HeldIffInOrder(s, actions[..|actions| - 1], before, ip, since);
      if HeldThroughout(s, actions[..|actions| - 1], ip, since) {
        ApplyKeepsHeldIff(before, actions[|actions| - 1], ip, since);
      }
    }
  }

  // Rejected at every instant up to and including `until`.
  ghost predicate BlockedUntil(s: Listener, ip: Ip, until: nat) {
    forall at :: 0 <= at <= until ==> Rejects(s.table, ip, at, s.policy)
  }

  lemma HeldIffBlocked(s: Listener, ip: Ip, since: nat)
    requires s.policy.enabled && (ip in s.table ==> s.table[ip].flaps <= U64_MAX)
    ensures Held(s, ip, since) <==> BlockedUntil(s, ip, since + s.policy.blockTime)
  {
    if BlockedUntil(s, ip, since + s.policy.blockTime) {
      assert Rejects(s.table, ip, since + s.policy.blockTime, s.policy);
    }
  }

  ghost predicate BlockedThroughout(s: Listener, actions: seq<Action>, ip: Ip, until: nat) {
    && After(s, actions).Some? && BlockedUntil(After(s, actions).value, ip, until)
    && (actions == [] || BlockedThroughout(s, actions[..|actions| - 1], ip, until))
  }

  lemma {:induction false} LaterKeepsTable(s: Listener, actions: seq<Action>, t: Listener)
    requires Leads(s, actions, t) && TableInv(s)
    ensures TableInv(t)
    decreases |actions|
  {
    if actions != [] {
      var before := Unwind(s, actions, t);
      LaterKeepsTable(s, actions[..|actions| - 1], before);
      ApplyKeepsTable(before, actions[|actions| - 1]);
    }
  }

  lemma {:induction false} HeldIsBlocked(s: Listener, actions: seq<Action>, t: Listener, ip: Ip, since: nat)
    requires Leads(s, actions, t) && TableInv(s) && s.policy.enabled
    ensures HeldThroughout(s, actions, ip, since) <==> BlockedThroughout(s, actions, ip, since + s.policy.blockTime)
    decreases |actions|
  {
    LaterKeepsTable(s, actions, t);
    NowGrows(s, actions, t);
    CountIsBounded(t, ip);
    HeldIffBlocked(t, ip, since);
    hide TableInv, Held, BlockedUntil, Apply, Enabled;
    if actions != [] {
      var before := Unwind(s, actions, t);
      HeldIsBlocked(s, actions[..|actions| - 1], before, ip, since);
    }
  }

  lemma CountIsBounded(s: Listener, ip: Ip)
    requires TableInv(s)
    ensures ip in s.table ==> s.table[ip].flaps <= U64_MAX
  {
    assert ip in s.table ==> EntryInv(s.flaps, s.born[ip], ip, s.table[ip]);
  }

  /** Exactly: an IP that is rejected up to some flap's time plus the block time goes
      on being rejected up to that instant, after every later operation, if and only
      if each of those operations was in order for it. */
  lemma BlockLastsIff(
    policy: Policy, capacity: nat, first: seq<Action>, s: Listener, more: seq<Action>, t: Listener, ip: Ip, since: nat)
    requires Leads(Start(policy, capacity), first, s) && Leads(s, more, t) && policy.enabled
    requires BlockedUntil(s, ip, since + policy.blockTime)
    ensures BlockedThroughout(s, more, ip, since + policy.blockTime) <==> AllInOrder(s, more, ip, since)
  {
    hide Leads, TableInv, Held, BlockedUntil, AllInOrder, HeldThroughout, BlockedThroughout, Start;
    ReachableIsSound(policy, capacity, first, s);
    CountIsBounded(s, ip);
    HeldIffBlocked(s, ip, since);
    HeldIffInOrder(s, more, t, ip, since);
    HeldIsBlocked(s, more, t, ip, since);
  }

  lemma ReachableIsSound(policy: Policy, capacity: nat, actions: seq<Action>, s: Listener)
    requires Leads(Start(policy, capacity), actions, s)
    ensures TableInv(s) && s.policy == policy
  {
    RunKeepsTable(policy, capacity, actions, s);
    NowGrows(Start(policy, capacity), actions, s);
  }

  // What callers can see of it: no operation was applied with a reading beyond the
  // block, nor a disconnect of that IP with a reading before the remembered flap.
  predicate Punctual(connections: seq<Connection>, actions: seq<Action>, ip: Ip, since: nat, until: nat) {
    forall i :: 0 <= i < |actions| && !actions[i].Tick? ==>
      && actions[i].at <= until
      && (actions[i].Leave? && actions[i].connection < |connections| && connections[actions[i].connection].ip == ip ==>
            since <= actions[i].at)
  }

  lemma {:induction false} StaysHeld(s: Listener, actions: seq<Action>, t: Listener, ip: Ip, since: nat)
    requires Leads(s, actions, t) && Held(s, ip, since)
    requires Punctual(t.connections, actions, ip, since, since + s.policy.blockTime)
    ensures Held(t, ip, since)
    decreases |actions|
  {
    if actions != [] {
      var n := |actions| - 1;
      var before := Unwind(s, actions, t);
      NowGrows(s, actions[..n], before);
      PunctualPrefix(before, actions, t, ip, since, since + s.policy.blockTime);
      StaysHeld(s, actions[..n], before, ip, since);
      assert actions[n].Tick? || actions[n].at <= since + s.policy.blockTime;
      ApplyKeepsHeldIff(before, actions[n], ip, since);
    }
  }

  lemma PunctualPrefix(before: Listener, actions: seq<Action>, t: Listener, ip: Ip, since: nat, until: nat)
    requires actions != [] && Enabled(before, actions[|actions| - 1]) && t == Apply(before, actions[|actions| - 1])
    requires Punctual(t.connections, actions, ip, since, until)
    ensures Punctual(before.connections, actions[..|actions| - 1], ip, since, until)
    ensures var a := actions[|actions| - 1];
            a.Leave? && before.connections[a.connection].ip == ip ==> since <= a.at
  {
    assert forall id :: 0 <= id < |before.connections| ==>
             id < |t.connections| && t.connections[id].ip == before.connections[id].ip;
    assert forall i :: 0 <= i < |actions| - 1 ==> actions[..|actions| - 1][i] == actions[i];
  }

  /** An IP over grace is rejected at every instant up to its last flap plus the
      block time, whatever other IPs, other connections of the same IP, or
      inspections do in between, provided none of them is applied with a clock
      reading beyond that block, and no disconnect of that IP with a reading from
      before that flap. */
  lemma BlockLasts(
    policy: Policy, capacity: nat, first: seq<Action>, s: Listener, more: seq<Action>, t: Listener, ip: Ip, at: nat)
    requires Leads(Start(policy, capacity), first, s) && Leads(s, more, t) && policy.enabled
    requires ip in s.table && s.table[ip].flaps > policy.grace
    requires at <= s.table[ip].lastFlap + policy.blockTime
    requires Punctual(t.connections, more, ip, s.table[ip].lastFlap, s.table[ip].lastFlap + policy.blockTime)
    ensures Rejects(t.table, ip, at, policy)
  {
    RunKeepsTable(policy, capacity, first, s);
    NowGrows(Start(policy, capacity), first, s);
    assert EntryInv(s.flaps, s.born[ip], ip, s.table[ip]);
    NowGrows(s, more, t);
    StaysHeld(s, more, t, ip, s.table[ip].lastFlap);
  }

  // Every operation reads the clock no earlier than the instant of `s`.
  predicate ReadFromNowOn(s: Listener, actions: seq<Action>) {
    forall i :: 0 <= i < |actions| && !actions[i].Tick? ==> s.now <= actions[i].at
  }

  /** In particular the block lasts when every later operation reads the clock after
      the flap was recorded, up to the instant of the last reading. */
  lemma BlockLastsFromNowOn(
    policy: Policy, capacity: nat, first: seq<Action>, s: Listener, more: seq<Action>, t: Listener, ip: Ip, at: nat)
    requires Leads(Start(policy, capacity), first, s) && Leads(s, more, t) && policy.enabled
    requires ip in s.table && s.table[ip].flaps > policy.grace && ReadFromNowOn(s, more)
    requires t.now <= at <= s.table[ip].lastFlap + policy.blockTime
    ensures Rejects(t.table, ip, at, policy)
  {
    RunKeepsTable(policy, capacity, first, s);
    ReadingsArePast(s, more, t);
    BlockLasts(policy, capacity, first, s, more, t, ip, at);
  }

  lemma {:induction false} ReadingsArePast(s: Listener, actions: seq<Action>, t: Listener)
    requires Leads(s, actions, t)
    ensures forall i :: 0 <= i < |actions| && !actions[i].Tick? ==> actions[i].at <= t.now
    decreases |actions|
  {
    if actions != [] {
      var n := |actions| - 1;
      var before := Unwind(s, actions, t);
      ReadingsArePast(s, actions[..n], before);
      assert forall i :: 0 <= i < n ==> actions[..n][i] == actions[i];
    }
  }

  lemma Extend(s: Listener, actions: seq<Action>, t: Listener, a: Action) returns (longer: seq<Action>, after: Listener)
    requires Leads(s, actions, t) && Enabled(t, a)
    ensures longer == actions + [a] && after == Apply(t, a) && Leads(s, longer, after)
  {
    longer, after := actions + [a], Apply(t, a);
    assert longer[..|longer| - 1] == actions;
  }

  /** The condition is needed: of two short connections of one IP, the one that read
      the clock first may record last, and then takes the block back with it. */
  lemma BlockCanEndEarly(ip: Ip, capacity: nat)
    returns (policy: Policy, first: seq<Action>, s: Listener, second: Action, t: Listener, at: nat)
    requires capacity > 0
    ensures Leads(Start(policy, capacity), first, s) && Enabled(s, second) && t == Apply(s, second)
    ensures policy.enabled && ip in s.table && s.table[ip].flaps > policy.grace
    ensures at <= s.table[ip].lastFlap + policy.blockTime && !Rejects(t.table, ip, at, policy)
  {
    policy := Policy(true, 1000, 0, 100);
    var start := Start(policy, capacity);
    assert Leads(start, [], start);
    hide Leads;
    first, s := Extend(start, [], start, Accept(ip, 0));
    first, s := Extend(start, first, s, Accept(ip, 0));
    assert s.connections == [Connection(ip, 0, 0, false), Connection(ip, 0, 0, false)] && s.table == map[];
    first, s := Extend(start, first, s, Tick(11));
    first, s := Extend(start, first, s, Leave(1, 11));
    assert s.table[ip] == Entry(11, 1) && s.connections[0] == Connection(ip, 0, 0, false);
    second, at := Leave(0, 10), 111;
    t := Apply(s, second);
    assert t.table[ip].lastFlap == 10;
  }
}
