/**
 * The polling subscription: a snapshot of the last state seen per entity
 * type, the per-tick diff rules that turn a fresh read into events, and the
 * bounded event buffer those events are offered to without blocking.
 *
 * A read is `Some(data)` when the fetch succeeded and `None` when it failed.
 */
module Subscriptions {
  import opened Common
  import opened Types

  /** `DefaultEventConfig`. */
  function DefaultEventConfig(): (c: EventConfig)
    ensures c.pollInterval == 2 * Second && c.bufferSize == 100
    ensures c.retryOnError && c.retryInterval == 5 * Second
    ensures !c.includeInitialState && !c.batchEvents && c.batchWindow == 100 * Millisecond && !c.logErrors
    ensures c.timeFormat == "2006-01-02T15:04:05Z07:00"
  {
    EventConfig(2 * Second, 100, true, 5 * Second, false, false, 100 * Millisecond, false, "2006-01-02T15:04:05Z07:00")
  }

  // ---- Players ----

  /** The names of a player list, as a set. */
  ghost function PlayerNames(players: seq<ServerPlayer>): set<string>
  {
    set i | 0 <= i < |players| :: players[i].player
  }

  /** `newPlayerSetFromSlice`. */
  method NewPlayerSet(players: seq<ServerPlayer>) returns (s: set<string>)
    ensures s == PlayerNames(players)
    ensures forall i :: 0 <= i < |players| ==> players[i].player in s
    ensures forall n :: n in s ==> exists i :: 0 <= i < |players| && players[i].player == n
  {
    s := {};
    var i := 0;
    while i < |players|
      invariant 0 <= i <= |players|
      invariant s == PlayerNames(players[..i])
    {
      assert PlayerNames(players[..i + 1]) == PlayerNames(players[..i]) + {players[i].player} by {
        assert forall j :: 0 <= j < i ==> players[..i + 1][j] == players[..i][j];
      }
      s := s + {players[i].player};
      i := i + 1;
    }
    assert players[..|players|] == players;
  }

  function JoinEvent(p: ServerPlayer): PlayerEvent {
    PlayerEvent(p, "join")
  }

  /** A leave carries only the player's name; the other fields are zero. */
  function LeaveEvent(name: string): PlayerEvent {
    PlayerEvent(ServerPlayer(name, "", "", "", 0), "leave")
  }

  /** The joins of a tick: one per listed player whose name the old set lacks, in list order. */
  function JoinEvents(prev: set<string>, players: seq<ServerPlayer>): seq<PlayerEvent>
  {
    if |players| == 0 then []
    else
      var last := players[|players| - 1];
      JoinEvents(prev, players[..|players| - 1]) + (if last.player !in prev then [JoinEvent(last)] else [])
  }

  /** The names a list of events carries. */
  ghost function EventNames(es: seq<PlayerEvent>): set<string>
  {
    set i | 0 <= i < |es| :: es[i].player.player
  }

  /** `ls` is the leaves for `names`: one leave per name, no name twice, in some order. */
  ghost predicate LeavesFor(ls: seq<PlayerEvent>, names: set<string>)
  {
    (forall i :: 0 <= i < |ls| ==> ls[i] == LeaveEvent(ls[i].player.player))
    && EventNames(ls) == names
    && |ls| == |names|
  }

  lemma LeavesSnoc(ls: seq<PlayerEvent>, names: set<string>, name: string)
    requires LeavesFor(ls, names) && name !in names
    ensures LeavesFor(ls + [LeaveEvent(name)], names + {name})
  {
    var ls' := ls + [LeaveEvent(name)];
    assert EventNames(ls') == EventNames(ls) + {name} by {
      assert forall j :: 0 <= j < |ls| ==> ls'[j] == ls[j];
      assert ls'[|ls|].player.player == name;
    }
  }

  /** The join loop of a player tick. */
  method NewJoins(oldSet: set<string>, players: seq<ServerPlayer>) returns (joins: seq<PlayerEvent>)
    ensures joins == JoinEvents(oldSet, players)
  {
    joins := [];
    var i := 0;
    while i < |players|
      invariant 0 <= i <= |players|
      invariant joins == JoinEvents(oldSet, players[..i])
    {
      assert players[..i + 1][..i] == players[..i];
      if players[i].player !in oldSet {
        joins := joins + [JoinEvent(players[i])];
      }
      i := i + 1;
    }
    assert players[..|players|] == players;
  }

  /** The leave loop of a player tick: one leave per old name the new set lacks, in map order. */
  method NewLeaves(oldSet: set<string>, newSet: set<string>) returns (leaves: seq<PlayerEvent>)
    ensures LeavesFor(leaves, oldSet - newSet)
  {
    leaves := [];
    var pending := oldSet;
    ghost var done: set<string> := {};
    while pending != {}
      invariant pending <= oldSet
      invariant done == (oldSet - pending) - newSet
      invariant LeavesFor(leaves, done)
      decreases pending
    {
      var name :| name in pending;
      if name !in newSet {
        LeavesSnoc(leaves, done, name);
        leaves := leaves + [LeaveEvent(name)];
        done := done + {name};
      }
      pending := pending - {name};
    }
  }

  /**
   * The change list of a player tick: the joins in list order, then one
   * leave for each old name missing from the new set.
   */
  method PlayerChanges(oldSet: set<string>, newSet: set<string>, players: seq<ServerPlayer>)
    returns (changes: seq<PlayerEvent>)
    requires newSet == PlayerNames(players)
    ensures |changes| >= |JoinEvents(oldSet, players)|
    ensures changes[..|JoinEvents(oldSet, players)|] == JoinEvents(oldSet, players)
    ensures LeavesFor(changes[|JoinEvents(oldSet, players)|..], oldSet - newSet)
  {
    var joins := NewJoins(oldSet, players);
    var leaves := NewLeaves(oldSet, newSet);
    changes := joins + leaves;
    assert changes[..|joins|] == joins;
    assert changes[|joins|..] == leaves;
  }

  /** Every join names a listed player outside the old set, and every such player has a join. */
  lemma {:induction false} JoinNames(prev: set<string>, players: seq<ServerPlayer>)
    ensures EventNames(JoinEvents(prev, players)) == PlayerNames(players) - prev
    ensures forall i :: 0 <= i < |JoinEvents(prev, players)| ==> JoinEvents(prev, players)[i].kind == "join"
  {
    if |players| > 0 {
      var init := players[..|players| - 1];
      var last := players[|players| - 1];
      JoinNames(prev, init);
      var js := JoinEvents(prev, init);
      var tail: seq<PlayerEvent> := if last.player !in prev then [JoinEvent(last)] else [];
      assert JoinEvents(prev, players) == js + tail;
      assert EventNames(tail) == if last.player !in prev then {last.player} else {} by {
        if last.player !in prev {
          assert tail[0].player.player == last.player;
        }
      }
      assert EventNames(js + tail) == EventNames(js) + EventNames(tail) by {
        assert forall j :: 0 <= j < |js| ==> (js + tail)[j] == js[j];
        assert forall j :: 0 <= j < |tail| ==> (js + tail)[|js| + j] == tail[j];
      }
      assert PlayerNames(players) == PlayerNames(init) + {last.player} by {
        assert forall j :: 0 <= j < |init| ==> players[j] == init[j];
      }
      forall i | 0 <= i < |js + tail| ensures (js + tail)[i].kind == "join" {
        if i < |js| {
          assert (js + tail)[i] == js[i];
        }
      }
    }
  }

  /** The player set after applying a change list: add the joins, remove the leaves. */
  ghost function ApplyChanges(prev: set<string>, joins: seq<PlayerEvent>, leaves: seq<PlayerEvent>): set<string>
  {
    (prev + EventNames(joins)) - EventNames(leaves)
  }

  /** Applying a tick's changes to the old set gives exactly the new set. */
  lemma DiffRebuildsNewSet(prev: set<string>, players: seq<ServerPlayer>, leaves: seq<PlayerEvent>)
    requires LeavesFor(leaves, prev - PlayerNames(players))
    ensures ApplyChanges(prev, JoinEvents(prev, players), leaves) == PlayerNames(players)
  {
    JoinNames(prev, players);
  }

  /** Leaves for a single name are exactly one leave event. */
  lemma SingleLeave(ls: seq<PlayerEvent>, name: string)
    requires LeavesFor(ls, {name})
    ensures ls == [LeaveEvent(name)]
  {
    assert |ls| == 1;
    assert ls[0].player.player in EventNames(ls);
  }

  /** Previous snapshot {A, B}, new list [B, C]: one join for C, then one leave for A. */
  lemma JoinLeaveExample(b: ServerPlayer, c: ServerPlayer, changes: seq<PlayerEvent>)
    requires b.player == "B" && c.player == "C"
    requires |changes| >= |JoinEvents({"A", "B"}, [b, c])|
    requires changes[..|JoinEvents({"A", "B"}, [b, c])|] == JoinEvents({"A", "B"}, [b, c])
    requires LeavesFor(changes[|JoinEvents({"A", "B"}, [b, c])|..], {"A", "B"} - {"B", "C"})
    ensures changes == [JoinEvent(c), LeaveEvent("A")]
  {
    assert [b, c][..1] == [b];
    assert [b][..0] == [];
    assert "B" in {"A", "B"} && "C" !in {"A", "B"};
    assert JoinEvents({"A", "B"}, []) == [];
    assert JoinEvents({"A", "B"}, [b]) == [];
    assert JoinEvents({"A", "B"}, [b, c]) == [JoinEvent(c)];
    assert {"A", "B"} - {"B", "C"} == {"A"};
    SingleLeave(changes[1..], "A");
    assert changes == changes[..1] + changes[1..];
  }

  // ---- Vehicles ----

  /** A vehicle's identity: owner, ':' and name. */
  function VehicleKey(v: Vehicle): string {
    v.owner + ":" + v.name
  }

  ghost function VehicleKeySet(vehicles: seq<Vehicle>): set<string>
  {
    set i | 0 <= i < |vehicles| :: VehicleKey(vehicles[i])
  }

  /** The key set of a vehicle list. */
  method VehicleKeys(vehicles: seq<Vehicle>) returns (s: set<string>)
    ensures s == VehicleKeySet(vehicles)
  {
    s := {};
    var i := 0;
    while i < |vehicles|
      invariant 0 <= i <= |vehicles|
      invariant s == VehicleKeySet(vehicles[..i])
    {
      assert VehicleKeySet(vehicles[..i + 1]) == VehicleKeySet(vehicles[..i]) + {VehicleKey(vehicles[i])} by {
        assert forall j :: 0 <= j < i ==> vehicles[..i + 1][j] == vehicles[..i][j];
      }
      s := s + {VehicleKey(vehicles[i])};
      i := i + 1;
    }
    assert vehicles[..|vehicles|] == vehicles;
  }

  /** The vehicles of a tick that are reported: those whose key the old set lacks, in list order. */
  function Added(prev: set<string>, vehicles: seq<Vehicle>): seq<Vehicle>
  {
    if |vehicles| == 0 then []
    else
      var last := vehicles[|vehicles| - 1];
      Added(prev, vehicles[..|vehicles| - 1]) + (if VehicleKey(last) !in prev then [last] else [])
  }

  /** The additions of a vehicle tick. */
  method NewVehicles(oldSet: set<string>, vehicles: seq<Vehicle>) returns (added: seq<Vehicle>)
    ensures added == Added(oldSet, vehicles)
  {
    added := [];
    var i := 0;
    while i < |vehicles|
      invariant 0 <= i <= |vehicles|
      invariant added == Added(oldSet, vehicles[..i])
    {
      assert vehicles[..i + 1][..i] == vehicles[..i];
      if VehicleKey(vehicles[i]) !in oldSet {
        added := added + [vehicles[i]];
      }
      i := i + 1;
    }
    assert vehicles[..|vehicles|] == vehicles;
  }

  /** Exactly the listed vehicles with a key new to the tick are reported: removals never are. */
  lemma {:induction false} AddedAreNew(prev: set<string>, vehicles: seq<Vehicle>)
    ensures forall v :: v in Added(prev, vehicles) <==> v in vehicles && VehicleKey(v) !in prev
  {
    if |vehicles| > 0 {
      var init := vehicles[..|vehicles| - 1];
      AddedAreNew(prev, init);
      assert vehicles == init + [vehicles[|vehicles| - 1]];
    }
  }

  /** Owner "a:b" with name "c" and owner "a" with name "b:c" share a key, so the second is never reported. */
  lemma VehicleKeyCollision(v: Vehicle, w: Vehicle)
    requires v.owner == "a:b" && v.name == "c" && w.owner == "a" && w.name == "b:c"
    ensures VehicleKey(v) == VehicleKey(w)
    ensures Added({VehicleKey(v)}, [w]) == []
  {
    assert VehicleKey(v) == "a:b:c" == VehicleKey(w);
    assert [w][..0] == [];
  }

  // ---- Logs ----

  /**
   * The rule for one append-only log: a successful, non-empty read whose
   * first entry is strictly newer than the last recorded time is emitted
   * whole, and its first entry's time becomes the recorded time.
   */
  function LogStep(lastTime: int, kind: EventType, read: Option<seq<LogEntry>>): (r: (int, Option<Event>))
    ensures r.1.Some? <==> read.Some? && |read.value| > 0 && read.value[0].timestamp > lastTime
    ensures r.1.Some? ==> r.1.value == LogsAppended(kind, read.value) && r.0 == read.value[0].timestamp
    ensures r.1.None? ==> r.0 == lastTime
    ensures r.0 >= lastTime
  {
    if read.Some? && |read.value| > 0 && read.value[0].timestamp > lastTime then
      (read.value[0].timestamp, Some(LogsAppended(kind, read.value)))
    else (lastTime, None)
  }

  /** A batch whose first entry ties the recorded time is not emitted, whatever it holds. */
  lemma TiedTimestampNotEmitted(lastTime: int, kind: EventType, logs: seq<LogEntry>)
    requires |logs| > 0 && logs[0].timestamp == lastTime
    ensures LogStep(lastTime, kind, Some(logs)) == (lastTime, None)
  {
  }

  /** Recorded times never go back, however many reads are applied. */
  lemma {:induction false} LogTimesNeverDecrease(lastTime: int, kind: EventType, batches: seq<Option<seq<LogEntry>>>)
    decreases |batches|
    ensures LogTimeAfter(lastTime, kind, batches) >= lastTime
  {
    if |batches| > 0 {
      LogTimesNeverDecrease(LogStep(lastTime, kind, batches[0]).0, kind, batches[1..]);
    }
  }

  /** The recorded time after a series of reads. */
  function LogTimeAfter(lastTime: int, kind: EventType, batches: seq<Option<seq<LogEntry>>>): int
    decreases |batches|
  {
    if |batches| == 0 then lastTime else LogTimeAfter(LogStep(lastTime, kind, batches[0]).0, kind, batches[1..])
  }

  /** The first entry's time of a successful, non-empty read, or `dflt`. */
  function FirstTime(read: Option<seq<LogEntry>>, dflt: int): int
  {
    if read.Some? && |read.value| > 0 then read.value[0].timestamp else dflt
  }

  // ---- The subscription ----

  /** One tick's reads, one per entity type. */
  datatype Reads = Reads(
    players: Option<seq<ServerPlayer>>,
    vehicles: Option<seq<Vehicle>>,
    commands: Option<seq<LogEntry>>,
    modCalls: Option<seq<LogEntry>>,
    kills: Option<seq<LogEntry>>,
    joins: Option<seq<LogEntry>>)

  predicate IsLog(kind: EventType) {
    kind.Commands? || kind.ModCalls? || kind.Kills? || kind.Joins?
  }

  /** The buffer after a non-blocking send: the event is kept only if there is room. */
  function Offered(events: seq<Event>, capacity: nat, e: Event): (r: seq<Event>)
    ensures |events| <= capacity ==> |r| <= capacity
    ensures |events| < capacity ==> r == events + [e]
    ensures |events| >= capacity ==> r == events
  {
    if |events| < capacity then events + [e] else events
  }

  /** The read a tick holds for one log type. */
  function LogRead(fetched: Reads, kind: EventType): Option<seq<LogEntry>>
    requires IsLog(kind)
  {
    match kind
    case Commands => fetched.commands
    case ModCalls => fetched.modCalls
    case Kills => fetched.kills
    case Joins => fetched.joins
  }

  /** The last state seen per entity type: player names, vehicle keys and the four logs' recorded times. */
  datatype Snapshot = Snapshot(players: set<string>, vehicleSet: set<string>,
                               commandTime: int, modCallTime: int, killTime: int, joinTime: int)

  /** The recorded time of one log type. */
  function TimeOf(kind: EventType, s: Snapshot): int
    requires IsLog(kind)
  {
    match kind
    case Commands => s.commandTime
    case ModCalls => s.modCallTime
    case Kills => s.killTime
    case Joins => s.joinTime
  }

  /**
   * The state after the blocks of the types in `done` have run on `fetched`
   * from `s0`: each listed type's state is what its read leaves, a failed
   * player or vehicle read keeping the old one.
   */
  ghost function TickState(s0: Snapshot, done: seq<EventType>, fetched: Reads): Snapshot
  {
    Snapshot(
      if Players in done && fetched.players.Some? then PlayerNames(fetched.players.value) else s0.players,
      if Vehicles in done && fetched.vehicles.Some? then VehicleKeySet(fetched.vehicles.value) else s0.vehicleSet,
      if Commands in done then LogStep(s0.commandTime, Commands, fetched.commands).0 else s0.commandTime,
      if ModCalls in done then LogStep(s0.modCallTime, ModCalls, fetched.modCalls).0 else s0.modCallTime,
      if Kills in done then LogStep(s0.killTime, Kills, fetched.kills).0 else s0.killTime,
      if Joins in done then LogStep(s0.joinTime, Joins, fetched.joins).0 else s0.joinTime)
  }

  /**
   * `e` is an event a tick over `types` and `fetched` emits from the state
   * it started in: a non-empty player diff against the old set, the new
   * vehicles against the old keys, or a log batch newer than the old time.
   */
  ghost predicate TickEvent(e: Event, types: seq<EventType>, fetched: Reads, s0: Snapshot)
  {
    match e
    case PlayersChanged(changes) =>
      Players in types && fetched.players.Some? && |changes| > 0
      && var joins := JoinEvents(s0.players, fetched.players.value);
         |changes| >= |joins| && changes[..|joins|] == joins
         && LeavesFor(changes[|joins|..], s0.players - PlayerNames(fetched.players.value))
    case VehiclesAdded(vehicles) =>
      Vehicles in types && fetched.vehicles.Some? && |vehicles| > 0
      && vehicles == Added(s0.vehicleSet, fetched.vehicles.value)
    case LogsAppended(kind, _) =>
      IsLog(kind) && kind in types && LogStep(TimeOf(kind, s0), kind, LogRead(fetched, kind)).1 == Some(e)
  }

  /** A list diffed against its own name set has no joins. */
  lemma {:induction false} JoinsOfKnownPlayers(prev: set<string>, players: seq<ServerPlayer>)
    requires forall i :: 0 <= i < |players| ==> players[i].player in prev
    ensures JoinEvents(prev, players) == []
  {
    if |players| > 0 {
      JoinsOfKnownPlayers(prev, players[..|players| - 1]);
    }
  }

  /** Diffing a list against the set it built changes nothing. */
  lemma SamePlayersNoChanges(players: seq<ServerPlayer>, changes: seq<PlayerEvent>)
    requires |changes| >= |JoinEvents(PlayerNames(players), players)|
    requires changes[..|JoinEvents(PlayerNames(players), players)|] == JoinEvents(PlayerNames(players), players)
    requires LeavesFor(changes[|JoinEvents(PlayerNames(players), players)|..], PlayerNames(players) - PlayerNames(players))
    ensures changes == []
  {
    JoinsOfKnownPlayers(PlayerNames(players), players);
    assert changes[0..] == changes;
  }

  /** A vehicle list diffed against its own key set adds nothing. */
  lemma {:induction false} AddedOfKnownVehicles(prev: set<string>, vehicles: seq<Vehicle>)
    requires forall i :: 0 <= i < |vehicles| ==> VehicleKey(vehicles[i]) in prev
    ensures Added(prev, vehicles) == []
  {
    if |vehicles| > 0 {
      AddedOfKnownVehicles(prev, vehicles[..|vehicles| - 1]);
    }
  }

  /** Applying the same log read twice: the second step emits nothing and keeps the time. */
  lemma LogStepIdempotent(lastTime: int, kind: EventType, read: Option<seq<LogEntry>>)
    ensures LogStep(LogStep(lastTime, kind, read).0, kind, read) == (LogStep(lastTime, kind, read).0, None)
  {
  }

  /**
   * Polling again and reading the same data changes nothing: the state is
   * a fixed point and no block has an event to emit.
   */
  lemma UnchangedReadIsQuiet(s0: Snapshot, types: seq<EventType>, fetched: Reads, e: Event)
    ensures TickState(TickState(s0, types, fetched), types, fetched) == TickState(s0, types, fetched)
    ensures !TickEvent(e, types, fetched, TickState(s0, types, fetched))
  {
    var s1 := TickState(s0, types, fetched);
    LogStepIdempotent(s0.commandTime, Commands, fetched.commands);
    LogStepIdempotent(s0.modCallTime, ModCalls, fetched.modCalls);
    LogStepIdempotent(s0.killTime, Kills, fetched.kills);
    LogStepIdempotent(s0.joinTime, Joins, fetched.joins);
    match e {
      case PlayersChanged(changes) =>
        if TickEvent(e, types, fetched, s1) {
          SamePlayersNoChanges(fetched.players.value, changes);
        }
      case VehiclesAdded(vehicles) =>
        if Vehicles in types && fetched.vehicles.Some? {
          AddedOfKnownVehicles(VehicleKeySet(fetched.vehicles.value), fetched.vehicles.value);
        }
      case LogsAppended(kind, _) =>
    }
  }

  class Subscription {
    const types: seq<EventType>
    const bufferSize: nat
    var players: set<string>
    var vehicleSet: set<string>
    var commandTime: int
    var modCallTime: int
    var killTime: int
    var joinTime: int
    /** The events offered to the channel and not yet taken by the dispatcher. */
    var events: seq<Event>

    ghost predicate Valid()
      reads this
    {
      |events| <= bufferSize
    }

    function State(): Snapshot
      reads this
    {
      Snapshot(players, vehicleSet, commandTime, modCallTime, killTime, joinTime)
    }

    function LastTime(kind: EventType): int
      requires IsLog(kind)
      reads this
    {
      TimeOf(kind, State())
    }

    /**
     * Midway through a tick that started in `s0` with buffer `e0`: the
     * blocks of `done` have run, and the buffer is `e0` followed by events
     * those blocks emitted from `s0`.
     */
    ghost predicate Progress(done: seq<EventType>, fetched: Reads, s0: Snapshot, e0: seq<Event>)
      reads this
    {
      Valid() && State() == TickState(s0, done, fetched)
      && |events| >= |e0| && events[..|e0|] == e0
      && forall n :: |e0| <= n < |events| ==> TickEvent(events[n], types, fetched, s0)
    }

    /**
     * `SubscribeWithConfig` up to the start of polling: the buffer is sized
     * from the configuration (the default one when none is given) and each
     * listed type's state is read once, without emitting anything.
     */
    constructor (config: Option<EventConfig>, types: seq<EventType>, initial: Reads)
      requires config.Some? ==> config.value.bufferSize >= 0
      ensures Valid() && events == [] && this.types == types
      ensures bufferSize == (if config.Some? then config.value.bufferSize else DefaultEventConfig().bufferSize)
      ensures players == (if Players in types && initial.players.Some? then PlayerNames(initial.players.value) else {})
      ensures vehicleSet == (if Vehicles in types && initial.vehicles.Some? then VehicleKeySet(initial.vehicles.value) else {})
      ensures commandTime == (if Commands in types then FirstTime(initial.commands, 0) else 0)
      ensures modCallTime == (if ModCalls in types then FirstTime(initial.modCalls, 0) else 0)
      ensures killTime == (if Kills in types then FirstTime(initial.kills, 0) else 0)
      ensures joinTime == (if Joins in types then FirstTime(initial.joins, 0) else 0)
    {
      var cfg := if config.Some? then config.value else DefaultEventConfig();
      this.types := types;
      bufferSize := cfg.bufferSize;
      events := [];
      players := {};
      vehicleSet := {};
      commandTime, modCallTime, killTime, joinTime := 0, 0, 0, 0;
      new;
      var i := 0;
      while i < |types|
        invariant 0 <= i <= |types| && events == [] && Valid()
        invariant players == (if Players in types[..i] && initial.players.Some? then PlayerNames(initial.players.value) else {})
        invariant vehicleSet == (if Vehicles in types[..i] && initial.vehicles.Some? then VehicleKeySet(initial.vehicles.value) else {})
        invariant commandTime == (if Commands in types[..i] then FirstTime(initial.commands, 0) else 0)
        invariant modCallTime == (if ModCalls in types[..i] then FirstTime(initial.modCalls, 0) else 0)
        invariant killTime == (if Kills in types[..i] then FirstTime(initial.kills, 0) else 0)
        invariant joinTime == (if Joins in types[..i] then FirstTime(initial.joins, 0) else 0)
      {
        assert types[..i + 1] == types[..i] + [types[i]];
        match types[i] {
          case Players =>
            if initial.players.Some? {
              players := NewPlayerSet(initial.players.value);
            }
          case Vehicles =>
            if initial.vehicles.Some? {
              vehicleSet := VehicleKeys(initial.vehicles.value);
            }
          case Commands =>
            commandTime := FirstTime(initial.commands, commandTime);
          case ModCalls =>
            modCallTime := FirstTime(initial.modCalls, modCallTime);
          case Kills =>
            killTime := FirstTime(initial.kills, killTime);
          case Joins =>
            joinTime := FirstTime(initial.joins, joinTime);
        }
        i := i + 1;
      }
      assert types[..|types|] == types;
    }

    /** The non-blocking send: the event is dropped when the buffer is full. */
    method Send(e: Event)
      requires Valid()
      modifies this
      ensures Valid()
      ensures events == Offered(old(events), bufferSize, e)
      ensures players == old(players) && vehicleSet == old(vehicleSet)
      ensures commandTime == old(commandTime) && modCallTime == old(modCallTime)
      ensures killTime == old(killTime) && joinTime == old(joinTime)
    {
      if |events| < bufferSize {
        events := events + [e];
      }
    }

    /** The dispatcher receiving from the channel: the oldest buffered event, if any. */
    method Take() returns (e: Option<Event>)
      requires Valid()
      modifies this
      ensures Valid()
      ensures old(events) == [] ==> e.None? && events == []
      ensures old(events) != [] ==> e == Some(old(events)[0]) && events == old(events)[1..]
      ensures players == old(players) && vehicleSet == old(vehicleSet)
      ensures commandTime == old(commandTime) && modCallTime == old(modCallTime)
      ensures killTime == old(killTime) && joinTime == old(joinTime)
    {
      if events == [] {
        return None;
      }
      e := Some(events[0]);
      events := events[1..];
    }

    /** The player block of a tick. */
    method PlayersTick(read: Option<seq<ServerPlayer>>) returns (changes: seq<PlayerEvent>)
      requires Valid()
      modifies this
      ensures Valid()
      ensures read.None? ==> changes == [] && players == old(players) && events == old(events)
      ensures read.Some? ==> players == PlayerNames(read.value)
      ensures read.Some? ==> |changes| >= |JoinEvents(old(players), read.value)|
      ensures read.Some? ==> changes[..|JoinEvents(old(players), read.value)|] == JoinEvents(old(players), read.value)
                             && LeavesFor(changes[|JoinEvents(old(players), read.value)|..], old(players) - players)
      ensures events == if changes == [] then old(events) else Offered(old(events), bufferSize, PlayersChanged(changes))
      ensures vehicleSet == old(vehicleSet)
      ensures commandTime == old(commandTime) && modCallTime == old(modCallTime)
      ensures killTime == old(killTime) && joinTime == old(joinTime)
    {
      changes := [];
      if read.None? {
        return;
      }
      var newSet := NewPlayerSet(read.value);
      var oldSet := players;
      players := newSet;
      changes := PlayerChanges(oldSet, newSet, read.value);
      if |changes| > 0 {
        Send(PlayersChanged(changes));
      }
    }

    /** One log block of a tick. */
    method LogTick(kind: EventType, read: Option<seq<LogEntry>>)
      requires Valid() && IsLog(kind)
      modifies this
      ensures Valid()
      ensures LastTime(kind) == LogStep(old(LastTime(kind)), kind, read).0
      ensures LogStep(old(LastTime(kind)), kind, read).1.None? ==> events == old(events)
      ensures LogStep(old(LastTime(kind)), kind, read).1.Some? ==>
                events == Offered(old(events), bufferSize, LogStep(old(LastTime(kind)), kind, read).1.value)
      ensures commandTime == if kind == Commands then LastTime(kind) else old(commandTime)
      ensures modCallTime == if kind == ModCalls then LastTime(kind) else old(modCallTime)
      ensures killTime == if kind == Kills then LastTime(kind) else old(killTime)
      ensures joinTime == if kind == Joins then LastTime(kind) else old(joinTime)
      ensures players == old(players) && vehicleSet == old(vehicleSet)
    {
      var lastTime := LastTime(kind);
      if read.Some? && |read.value| > 0 && read.value[0].timestamp > lastTime {
        match kind {
          case Commands => commandTime := read.value[0].timestamp;
          case ModCalls => modCallTime := read.value[0].timestamp;
          case Kills => killTime := read.value[0].timestamp;
          case Joins => joinTime := read.value[0].timestamp;
        }
        Send(LogsAppended(kind, read.value));
      }
    }

    /** The vehicle block of a tick. */
    method VehiclesTick(read: Option<seq<Vehicle>>) returns (added: seq<Vehicle>)
      requires Valid()
      modifies this
      ensures Valid()
      ensures read.None? ==> added == [] && vehicleSet == old(vehicleSet) && events == old(events)
      ensures read.Some? ==> vehicleSet == VehicleKeySet(read.value) && added == Added(old(vehicleSet), read.value)
      ensures events == if added == [] then old(events) else Offered(old(events), bufferSize, VehiclesAdded(added))
      ensures players == old(players)
      ensures commandTime == old(commandTime) && modCallTime == old(modCallTime)
      ensures killTime == old(killTime) && joinTime == old(joinTime)
    {
      added := [];
      if read.None? {
        return;
      }
      var newSet := VehicleKeys(read.value);
      var oldSet := vehicleSet;
      vehicleSet := newSet;
      added := NewVehicles(oldSet, read.value);
      if |added| > 0 {
        Send(VehiclesAdded(added));
      }
    }

    /** The block of type `t` within a tick, keeping `Progress`. */
    method Block(t: EventType, fetched: Reads, ghost done: seq<EventType>, ghost s0: Snapshot, ghost e0: seq<Event>)
      requires Progress(done, fetched, s0, e0) && t in types
      modifies this
      ensures Progress(done + [t], fetched, s0, e0)
    {
      ghost var before := events;
      match t {
        case Players =>
          var changes := PlayersTick(fetched.players);
          if Players in done && fetched.players.Some? {
            SamePlayersNoChanges(fetched.players.value, changes);
          }
        case Vehicles =>
          var added := VehiclesTick(fetched.vehicles);
          if Vehicles in done && fetched.vehicles.Some? {
            AddedOfKnownVehicles(VehicleKeySet(fetched.vehicles.value), fetched.vehicles.value);
          }
        case Commands =>
          LogStepIdempotent(s0.commandTime, Commands, fetched.commands);
          LogTick(Commands, fetched.commands);
        case ModCalls =>
          LogStepIdempotent(s0.modCallTime, ModCalls, fetched.modCalls);
          LogTick(ModCalls, fetched.modCalls);
        case Kills =>
          LogStepIdempotent(s0.killTime, Kills, fetched.kills);
          LogTick(Kills, fetched.kills);
        case Joins =>
          LogStepIdempotent(s0.joinTime, Joins, fetched.joins);
          LogTick(Joins, fetched.joins);
      }
      assert events == before || events == before + [events[|before|]];
      assert forall n :: |e0| <= n < |before| ==> events[n] == before[n];
      assert before[..|e0|] == e0;
    }

    /**
     * One tick: every listed type's block, in the listed order. Each type's
     * state ends as its read left it, and every event appended is one that
     * type's block emits from the state the tick started in; a type listed
     * twice re-applies the same read, which emits nothing more.
     */
    method Tick(fetched: Reads)
      requires Valid()
      modifies this
      ensures Valid()
      ensures State() == TickState(old(State()), types, fetched)
      ensures commandTime >= old(commandTime) && modCallTime >= old(modCallTime)
      ensures killTime >= old(killTime) && joinTime >= old(joinTime)
      ensures |events| >= |old(events)| && events[..|old(events)|] == old(events)
      ensures forall n :: |old(events)| <= n < |events| ==> TickEvent(events[n], types, fetched, old(State()))
    {
      ghost var s0 := State();
      ghost var e0 := events;
      assert events[..|e0|] == e0;
      var i := 0;
      while i < |types|
        invariant 0 <= i <= |types|
        invariant Progress(types[..i], fetched, s0, e0)
      {
        Block(types[i], fetched, types[..i], s0, e0);
        assert types[..i + 1] == types[..i] + [types[i]];
        i := i + 1;
      }
      assert types[..|types|] == types;
    }
  }
}
