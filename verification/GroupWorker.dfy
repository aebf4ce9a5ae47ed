/** The reading loop of one worker: stale entries one by one, then new ones in a batch. */
module GroupWorker {
  import opened Common
  import opened DeadLetters
  import opened Dispatch
  import opened StreamGroup

  /** The group and the handlers' history, as one worker changes them. */
  datatype World = World(g: Group, calls: seq<HandlerCall>)

  /** What the handlers answer, and whether shutdown has been asked for when the worker looks. */
  datatype Env = Env(answers: (seq<HandlerCall>, HandlerCall) -> Outcome, aborted: World -> bool)

  // ---------- what the loops compute ----------

  function Enacted(st: Settings, c: Consumer, now: Instant, world: World, entry: Entry, settlement: Settlement): World {
    match settlement
    case Done => world.(g := Ack(world.g, [entry.id]))
    case Skipped => world
    case Retry(_) => world
    case Dead(_, _, _) =>
      var letter := DeadLetterFields(entry.fields, LetterOf(st, c, entry.id, settlement, now));
      world.(g := Ack(AddDead(world.g, letter), [entry.id]))
  }

  function SettledWorld(st: Settings, c: Consumer, env: Env, now: Instant, world: World, entry: Entry, attempt: nat)
    : (World, Settlement)
  {
    match Examine(st.rules, entry, attempt)
    case Settled(settlement) => (Enacted(st, c, now, world, entry, settlement), settlement)
    case GiveToHandler(envelope) =>
      var call := HandlerCall(entry.id, envelope, attempt);
      var settlement := Conclude(st.rules, attempt, env.answers(world.calls, call));
      (Enacted(st, c, now, world.(calls := world.calls + [call]), entry, settlement), settlement)
  }

  /** A claimed entry, settled at its attempt and, if skipped, acknowledged. */
  function AfterClaim(st: Settings, c: Consumer, env: Env, now: Instant, world: World, entry: Entry,
                      attempt: nat): World {
    var (settled, settlement) := SettledWorld(st, c, env, now, world, entry, attempt);
    if settlement.Skipped? then settled.(g := Ack(settled.g, [entry.id])) else settled
  }

  /** With the entry as claimed, or none when there is nothing to claim. */
  function GoingOn(st: Settings, c: Consumer, env: Env, now: Instant, world: World, claimed: Option<Entry>,
                   attempt: nat)
    : World
  {
    if claimed.None? then world else AfterClaim(st, c, env, now, world, claimed.value, attempt)
  }

  /** One stale entry: claimed, dispatched, and acknowledged at once if it was skipped. */
  function Reclaimed(st: Settings, c: Consumer, env: Env, now: Instant, world: World, listed: PendingEntry): World {
    var (g, claimed) := Claim(world.g, now, c, listed.id, st.claimIdleMs);
    GoingOn(st, c, env, now, world.(g := g), claimed, listed.deliveries + 1)
  }

  /** The stale entries in order, until shutdown. */
  function ReclaimRun(st: Settings, c: Consumer, env: Env, now: Instant, world: World, stale: seq<PendingEntry>): World
    decreases |stale|
  {
    if stale == [] || env.aborted(world) then world
    else ReclaimRun(st, c, env, now, Reclaimed(st, c, env, now, world, stale[0]), stale[1..])
  }

  /** The new entries in order; the skipped ones are acknowledged together at the end. */
  function BatchRun(
    st: Settings, c: Consumer, env: Env, now: Instant, world: World, entries: seq<Entry>, skipped: seq<StreamId>): World
    decreases |entries|
  {
    if entries == [] then (if skipped == [] then world else world.(g := Ack(world.g, skipped)))
    else
      var (after, settlement) := SettledWorld(st, c, env, now, world, entries[0], 1);
      BatchRun(st, c, env, now, after, entries[1..], if settlement.Skipped? then skipped + [entries[0].id] else skipped)
  }

  /** One turn of the loop, and whether shutdown ended it early. */
  function TurnRun(st: Settings, c: Consumer, env: Env, now: Instant, world: World): (World, bool) {
    var reclaimed := ReclaimRun(st, c, env, now, world, StalePending(world.g, now, st.claimIdleMs, st.batchSize));
    if env.aborted(reclaimed) then (reclaimed, true)
    else
      var (g, entries) := ReadNew(reclaimed.g, now, c, st.batchSize);
      (BatchRun(st, c, env, now, reclaimed.(g := g), entries, []), false)
  }

  /** Turns at the given moments, until shutdown is noticed between two turns or within one. */
  function TurnsRun(st: Settings, c: Consumer, env: Env, world: World, moments: seq<Instant>): World
    decreases |moments|
  {
    if moments == [] || env.aborted(world) then world
    else
      var (after, stopped) := TurnRun(st, c, env, moments[0], world);
      if stopped then after else TurnsRun(st, c, env, after, moments[1..])
  }

  // ---------- the loops ----------

  class RedisStreamGroup {
    const st: Settings
    const consumer: Consumer
    var redis: Group

    constructor (st: Settings, consumer: Consumer, redis: Group)
      ensures this.st == st && this.consumer == consumer && this.redis == redis
    {
      this.st := st;
      this.consumer := consumer;
      this.redis := redis;
    }

    method ListStale(now: Instant, minIdleMs: nat, count: nat) returns (stale: seq<PendingEntry>)
      ensures stale == StalePending(redis, now, minIdleMs, count)
    {
      stale := StalePending(redis, now, minIdleMs, count);
    }

    method ClaimOne(now: Instant, id: StreamId, minIdleMs: nat) returns (entry: Option<Entry>)
      modifies this
      ensures (redis, entry) == Claim(old(redis), now, consumer, id, minIdleMs)
    {
      var (g, claimed) := Claim(redis, now, consumer, id, minIdleMs);
      redis := g;
      entry := claimed;
    }

    method ReadUnread(now: Instant, count: nat) returns (entries: seq<Entry>)
      modifies this
      ensures (redis, entries) == ReadNew(old(redis), now, consumer, count)
    {
      var (g, page) := ReadNew(redis, now, consumer, count);
      redis := g;
      entries := page;
    }

    method Acknowledge(ids: seq<StreamId>)
      modifies this
      ensures redis == if ids == [] then old(redis) else Ack(old(redis), ids)
    {
      if ids == [] {
        return;
      }
      redis := Ack(redis, ids);
    }

    /** The dead-letter write comes first: a crash in between delivers the entry again. */
    method DeadLetterEntry(entry: Entry, death: DeadSettlement, now: Instant)
      modifies this
      ensures redis == Ack(AddDead(old(redis),
                                   DeadLetterFields(entry.fields, LetterOf(st, consumer, entry.id, death, now))),
                           [entry.id])
    {
      var fields := ToDeadLetterFields(entry.fields, LetterOf(st, consumer, entry.id, death, now));
      redis := AddDead(redis, fields);
      redis := Ack(redis, [entry.id]);
    }

    /** The consumer's name is given up only when nothing is pending for it, so nothing pending is forgotten. */
    method Release() returns (released: bool)
      modifies this
      ensures redis.pending == old(redis.pending) && redis == old(redis).(pending := redis.pending)
      ensures released <==> !HasPending(old(redis), consumer)
    {
      if HasPending(redis, consumer) {
        return false;
      }
      redis := DeleteConsumer(redis, consumer);
      return true;
    }
  }

  class GroupLoop {
    const stream: RedisStreamGroup
    const handlers: Handlers
    const env: Env

    ghost predicate Valid()
      reads handlers
    {
      handlers.answers == env.answers
    }

    function Now(): World
      reads stream, handlers
    {
      World(stream.redis, handlers.calls)
    }

    constructor (stream: RedisStreamGroup, handlers: Handlers, env: Env)
      requires handlers.answers == env.answers
      ensures this.stream == stream && this.handlers == handlers && this.env == env && Valid()
    {
      this.stream := stream;
      this.handlers := handlers;
      this.env := env;
    }

    method Settle(now: Instant, entry: Entry, attempt: nat) returns (settlement: Settlement)
      requires Valid()
      modifies stream, handlers
      ensures (Now(), settlement) == SettledWorld(stream.st, stream.consumer, env, now, old(Now()), entry, attempt)
    {
      settlement := DispatchEntry(stream.st.rules, entry, attempt, handlers);
      match settlement {
        case Done => stream.Acknowledge([entry.id]);
        case Skipped =>
        case Retry(_) =>
        case Dead(_, _, _) => stream.DeadLetterEntry(entry, settlement, now);
      }
    }

    method ReclaimStale(now: Instant)
      requires Valid()
      modifies stream, handlers
      ensures Now() == ReclaimRun(stream.st, stream.consumer, env, now, old(Now()),
                         StalePending(old(stream.redis), now, stream.st.claimIdleMs, stream.st.batchSize))
    {
      var stale := stream.ListStale(now, stream.st.claimIdleMs, stream.st.batchSize);
      ghost var goal := ReclaimRun(stream.st, stream.consumer, env, now, Now(), stale);
      var i := 0;
      while i < |stale|
        invariant 0 <= i <= |stale|
        invariant ReclaimRun(stream.st, stream.consumer, env, now, Now(), stale[i..]) == goal
      {
        if env.aborted(Now()) {
          return;
        }
        ghost var rest := stale[i + 1..];
        assert stale[i..][1..] == rest && stale[i..][0] == stale[i];
        ReclaimOne(now, stale[i]);
        i := i + 1;
        assert stale[i..] == rest;
      }
    }

    method ReclaimOne(now: Instant, listed: PendingEntry)
      requires Valid()
      modifies stream, handlers
      ensures Now() == Reclaimed(stream.st, stream.consumer, env, now, old(Now()), listed)
    {
      ghost var before := Now();
      var entry := stream.ClaimOne(now, listed.id, stream.st.claimIdleMs);
      assert Now() == before.(g := stream.redis);
      if entry.Some? {
        SettleClaimed(now, entry.value, listed.deliveries + 1);
      }
    }

    method SettleClaimed(now: Instant, entry: Entry, attempt: nat)
      requires Valid()
      modifies stream, handlers
      ensures Now() == AfterClaim(stream.st, stream.consumer, env, now, old(Now()), entry, attempt)
    {
      var settlement := Settle(now, entry, attempt);
      if settlement.Skipped? {
        stream.Acknowledge([entry.id]);
      }
    }

    method SettleBatch(now: Instant, entries: seq<Entry>)
      requires Valid()
      modifies stream, handlers
      ensures Now() == BatchRun(stream.st, stream.consumer, env, now, old(Now()), entries, [])
    {
      var skipped: seq<StreamId> := [];
      ghost var goal := BatchRun(stream.st, stream.consumer, env, now, Now(), entries, []);
      var i := 0;
      while i < |entries|
        invariant 0 <= i <= |entries|
        invariant BatchRun(stream.st, stream.consumer, env, now, Now(), entries[i..], skipped) == goal
      {
        ghost var rest := entries[i + 1..];
        assert entries[i..][1..] == rest && entries[i..][0] == entries[i];
        var settlement := Settle(now, entries[i], 1);
        if settlement.Skipped? {
          skipped := skipped + [entries[i].id];
        }
        i := i + 1;
        assert entries[i..] == rest;
      }
      stream.Acknowledge(skipped);
    }

    /** The body of the endless loop; `stopped` says that shutdown was noticed after the stale entries. */
    method Turn(now: Instant) returns (stopped: bool)
      requires Valid()
      modifies stream, handlers
      ensures (Now(), stopped) == TurnRun(stream.st, stream.consumer, env, now, old(Now()))
    {
      ReclaimStale(now);
      if env.aborted(Now()) {
        return true;
      }
      var entries := stream.ReadUnread(now, stream.st.batchSize);
      SettleBatch(now, entries);
      return false;
    }

    /** The reading loop, for as many turns as there are moments. */
    method Run(moments: seq<Instant>)
      requires Valid()
      modifies stream, handlers
      ensures Now() == TurnsRun(stream.st, stream.consumer, env, old(Now()), moments)
    {
      ghost var goal := TurnsRun(stream.st, stream.consumer, env, Now(), moments);
      var i := 0;
      while i < |moments|
        invariant 0 <= i <= |moments|
        invariant TurnsRun(stream.st, stream.consumer, env, Now(), moments[i..]) == goal
      {
        if env.aborted(Now()) {
          return;
        }
        ghost var rest := moments[i + 1..];
        assert moments[i..][1..] == rest && moments[i..][0] == moments[i];
        var stopped := Turn(moments[i]);
        if stopped {
          return;
        }
        i := i + 1;
        assert moments[i..] == rest;
      }
    }
  }
}
