/** Undisturbed passes over the stale entries empty the pending list, whatever the handlers answer. */
module GroupBacklog {
  import opened Common
  import opened Dispatch
  import opened StreamGroup
  import opened GroupWorker

  /** How many more passes an entry can stay pending. */
  function Weight(limit: nat, g: Group, id: StreamId): nat {
    if id !in g.pending then 0 else Max(1, limit + 1 - g.pending[id].deliveries)
  }

  function Backlog(limit: nat, g: Group, upTo: nat): nat {
    if upTo == 0 then 0 else Backlog(limit, g, upTo - 1) + Weight(limit, g, upTo - 1)
  }

  function TotalBacklog(st: Settings, g: Group): nat {
    Backlog(st.rules.maxDeliveries, g, g.lastDelivered + 1)
  }

  // ---------- one entry ----------

  /** What a pass over one listed entry does to the group. */
  predicate OnlyOneMoves(g: Group, h: Group, id: StreamId, now: Instant) {
    && h.lastDelivered == g.lastDelivered && h.entries == g.entries && h.lastId == g.lastId
    && (forall x :: x in h.pending ==> x in g.pending && (x != id ==> h.pending[x] == g.pending[x]))
    && (forall x :: x in g.pending && x != id ==> x in h.pending)
    && (id in h.pending ==>
         h.pending[id].deliveredAt == now && h.pending[id].deliveries == g.pending[id].deliveries + 1)
  }

  lemma SettledMoves(st: Settings, c: Consumer, env: Env, now: Instant, world: World, entry: Entry, attempt: nat)
    ensures var (after, settlement) := SettledWorld(st, c, env, now, world, entry, attempt);
            && after.g.lastDelivered == world.g.lastDelivered && after.g.entries == world.g.entries
            && after.g.lastId == world.g.lastId
            && after.g.pending
              == (if settlement.Done? || settlement.Dead? then world.g.pending - {entry.id} else world.g.pending)
            && (settlement.Retry? ==> attempt < st.rules.maxDeliveries)
  {
    assert (set x | x in [entry.id]) == {entry.id};
  }

  lemma ClaimTakes(st: Settings, c: Consumer, now: Instant, g: Group, id: StreamId)
    requires id in g.pending && IsStale(g, now, st.claimIdleMs, id)
    ensures var (h, claimed) := Claim(g, now, c, id, st.claimIdleMs);
            && h == g.(pending := h.pending)
            && (claimed.None? ==> h.pending == g.pending - {id})
            && (claimed.Some? ==>
                  && claimed.value.id == id
                  && h.pending == g.pending[id := Delivery(c, g.pending[id].deliveries + 1, now)])
  {
  }

  /** Taking up a stale entry removes it from the pending list, or keeps it one delivery later while below the limit. */
  predicate TakenUp(st: Settings, c: Consumer, now: Instant, g: Group, h: Group, listed: PendingEntry) {
    && h.lastDelivered == g.lastDelivered && h.entries == g.entries && h.lastId == g.lastId
    && (|| h.pending == g.pending - {listed.id}
        || (&& listed.deliveries + 1 < st.rules.maxDeliveries
            && h.pending == g.pending[listed.id := Delivery(c, listed.deliveries + 1, now)]))
  }

  /** A claimed entry, once settled and, if skipped, acknowledged. */
  lemma ClaimedTakesUp(st: Settings, c: Consumer, env: Env, now: Instant, world: World, g: Group, entry: Entry,
                       listed: PendingEntry)
    requires entry.id == listed.id
             && world.g == g.(pending := g.pending[listed.id := Delivery(c, listed.deliveries + 1, now)])
    ensures var (settled, settlement) := SettledWorld(st, c, env, now, world, entry, listed.deliveries + 1);
            var after := if settlement.Skipped? then settled.(g := Ack(settled.g, [listed.id])) else settled;
            TakenUp(st, c, now, g, after.g, listed)
  {
    SettledMoves(st, c, env, now, world, entry, listed.deliveries + 1);
    assert (set x | x in [listed.id]) == {listed.id};
    assert world.g.pending - {listed.id} == g.pending - {listed.id};
  }

  lemma ReclaimedTakesUp(st: Settings, c: Consumer, env: Env, now: Instant, world: World, listed: PendingEntry)
    requires listed.id in world.g.pending && IsStale(world.g, now, st.claimIdleMs, listed.id)
    requires world.g.pending[listed.id].deliveries == listed.deliveries
    ensures TakenUp(st, c, now, world.g, Reclaimed(st, c, env, now, world, listed).g, listed)
  {
    var (g, claimed) := Claim(world.g, now, c, listed.id, st.claimIdleMs);
    ClaimTakes(st, c, now, world.g, listed.id);
    if claimed.Some? {
      ClaimedTakesUp(st, c, env, now, world.(g := g), world.g, claimed.value, listed);
    }
  }

  /** A stale entry that is taken up leaves the pending list or comes one delivery closer to its limit. */
  lemma TakingUpProgresses(st: Settings, c: Consumer, now: Instant, g: Group, h: Group, listed: PendingEntry)
    requires listed.id in g.pending && g.pending[listed.id].deliveries == listed.deliveries
    requires TakenUp(st, c, now, g, h, listed)
    ensures OnlyOneMoves(g, h, listed.id, now)
    ensures Weight(st.rules.maxDeliveries, h, listed.id) < Weight(st.rules.maxDeliveries, g, listed.id)
  {
  }

  // ---------- one pass ----------

  /** The rest of a listing still describes the group. */
  predicate ListingHolds(st: Settings, g: Group, now: Instant, stale: seq<PendingEntry>) {
    && (forall i :: 0 <= i < |stale| ==>
          && IsStale(g, now, st.claimIdleMs, stale[i].id)
          && g.pending[stale[i].id].deliveries == stale[i].deliveries)
    && (forall i, j :: 0 <= i < j < |stale| ==> stale[i].id < stale[j].id)
  }

  ghost predicate NeverAborted(env: Env) {
    forall world :: !env.aborted(world)
  }

  ghost predicate PassedOver(limit: nat, g: Group, h: Group, now: Instant) {
    && h.lastDelivered == g.lastDelivered && h.entries == g.entries && h.lastId == g.lastId
    && (forall x :: Weight(limit, h, x) <= Weight(limit, g, x))
    && (forall x :: x in h.pending ==>
          && x in g.pending && h.pending[x].deliveries >= g.pending[x].deliveries
          && (h.pending[x].deliveredAt == now || h.pending[x] == g.pending[x]))
  }

  lemma {:induction false} ReclaimPassesOver(
    st: Settings, c: Consumer, env: Env, now: Instant, world: World, stale: seq<PendingEntry>)
    requires NeverAborted(env) && ListingHolds(st, world.g, now, stale)
    ensures PassedOver(st.rules.maxDeliveries, world.g, ReclaimRun(st, c, env, now, world, stale).g, now)
    ensures stale != [] ==>
              Weight(st.rules.maxDeliveries, ReclaimRun(st, c, env, now, world, stale).g, stale[0].id)
              < Weight(st.rules.maxDeliveries, world.g, stale[0].id)
    decreases |stale|
  {
    if stale != [] {
      var after := Reclaimed(st, c, env, now, world, stale[0]);
      ReclaimedTakesUp(st, c, env, now, world, stale[0]);
      TakingUpProgresses(st, c, now, world.g, after.g, stale[0]);
      ReclaimPassesOver(st, c, env, now, after, stale[1..]);
    }
  }

  lemma {:induction false} BacklogShrinks(limit: nat, g: Group, h: Group, upTo: nat, id: StreamId)
    requires forall x :: Weight(limit, h, x) <= Weight(limit, g, x)
    ensures Backlog(limit, h, upTo) <= Backlog(limit, g, upTo)
    ensures id < upTo && Weight(limit, h, id) < Weight(limit, g, id) ==>
            Backlog(limit, h, upTo) < Backlog(limit, g, upTo)
    decreases upTo
  {
    if upTo > 0 {
      BacklogShrinks(limit, g, h, upTo - 1, id);
    }
  }

  /** Everything pending has been idle long enough. */
  predicate AllStale(st: Settings, g: Group, now: Instant) {
    forall id :: id in g.pending ==> IsStale(g, now, st.claimIdleMs, id)
  }

  function Pass(st: Settings, c: Consumer, env: Env, now: Instant, world: World): World {
    ReclaimRun(st, c, env, now, world, StalePending(world.g, now, st.claimIdleMs, st.batchSize))
  }

  /** A pass with anything to do lowers the backlog. */
  lemma PassShrinksBacklog(st: Settings, c: Consumer, env: Env, now: Instant, world: World)
    requires GroupOk(world.g) && NeverAborted(env) && st.batchSize >= 1 && AllStale(st, world.g, now)
    ensures var after := Pass(st, c, env, now, world);
            && PassedOver(st.rules.maxDeliveries, world.g, after.g, now)
            && TotalBacklog(st, after.g) <= TotalBacklog(st, world.g)
            && (world.g.pending != map[] ==> TotalBacklog(st, after.g) < TotalBacklog(st, world.g))
  {
    var limit := st.rules.maxDeliveries;
    var stale := StalePending(world.g, now, st.claimIdleMs, st.batchSize);
    var after := Pass(st, c, env, now, world);
    StaleFromMeaning(world.g, now, st.claimIdleMs, 0, st.batchSize);
    ReclaimPassesOver(st, c, env, now, world, stale);
    BacklogShrinks(limit, world.g, after.g, world.g.lastDelivered + 1, 0);
    if world.g.pending != map[] {
      var id :| id in world.g.pending;
      StaleFromMissesOnlyYounger(world.g, now, st.claimIdleMs, 0, st.batchSize, id);
      assert stale != [];
      BacklogShrinks(limit, world.g, after.g, world.g.lastDelivered + 1, stale[0].id);
    }
  }

  lemma {:induction false} NoBacklogMeansNothingPending(limit: nat, g: Group, upTo: nat, id: StreamId)
    requires Backlog(limit, g, upTo) == 0 && id < upTo
    ensures id !in g.pending
    decreases upTo
  {
    if id < upTo - 1 {
      NoBacklogMeansNothingPending(limit, g, upTo - 1, id);
    }
  }

  function Passes(st: Settings, c: Consumer, env: Env, world: World, times: seq<Instant>): World
    decreases |times|
  {
    if times == [] then world else Passes(st, c, env, Pass(st, c, env, times[0], world), times[1..])
  }

  predicate Spaced(st: Settings, times: seq<Instant>) {
    forall i, j :: 0 <= i < j < |times| ==> times[j] - times[i] >= st.claimIdleMs
  }

  lemma {:induction false} BacklogAfterPasses(st: Settings, c: Consumer, env: Env, world: World, times: seq<Instant>)
    requires GroupOk(world.g) && NeverAborted(env) && st.batchSize >= 1 && Spaced(st, times)
    requires forall i :: 0 <= i < |times| ==> AllStale(st, world.g, times[i])
    ensures var after := Passes(st, c, env, world, times);
            && GroupOk(after.g)
            && (TotalBacklog(st, after.g) + |times| <= TotalBacklog(st, world.g) || after.g.pending == map[])
    decreases |times|
  {
    if times != [] {
      var next := Pass(st, c, env, times[0], world);
      PassShrinksBacklog(st, c, env, times[0], world);
      PassKeepsGroupOk(st, c, env, times[0], world);
      assert forall i :: 0 <= i < |times[1..]| ==> times[1..][i] == times[i + 1];
      forall i | 0 <= i < |times[1..]|
        ensures AllStale(st, next.g, times[1..][i])
      {
        assert AllStale(st, world.g, times[i + 1]);
      }
      BacklogAfterPasses(st, c, env, next, times[1..]);
      if world.g.pending == map[] {
        EmptyStaysEmpty(st, c, env, world, times);
      }
    }
  }

  lemma PassKeepsGroupOk(st: Settings, c: Consumer, env: Env, now: Instant, world: World)
    requires GroupOk(world.g) && PassedOver(st.rules.maxDeliveries, world.g, Pass(st, c, env, now, world).g, now)
    ensures GroupOk(Pass(st, c, env, now, world).g)
  {
  }

  lemma {:induction false} EmptyStaysEmpty(st: Settings, c: Consumer, env: Env, world: World, times: seq<Instant>)
    requires GroupOk(world.g) && NeverAborted(env) && st.batchSize >= 1 && world.g.pending == map[]
    ensures Passes(st, c, env, world, times).g.pending == map[]
    decreases |times|
  {
    if times != [] {
      PassShrinksBacklog(st, c, env, times[0], world);
      PassKeepsGroupOk(st, c, env, times[0], world);
      EmptyStaysEmpty(st, c, env, Pass(st, c, env, times[0], world), times[1..]);
    }
  }

  /**
   * Recovery ends: with nothing new read, as many undisturbed passes as the backlog counts (at most maxDeliveries for
   * each pending entry) leave nothing pending, whatever the handlers answer.
   */
  lemma BacklogDrains(st: Settings, c: Consumer, env: Env, world: World, times: seq<Instant>)
    requires GroupOk(world.g) && NeverAborted(env) && st.batchSize >= 1 && Spaced(st, times)
    requires forall i :: 0 <= i < |times| ==> AllStale(st, world.g, times[i])
    requires |times| >= TotalBacklog(st, world.g)
    ensures Passes(st, c, env, world, times).g.pending == map[]
  {
    BacklogAfterPasses(st, c, env, world, times);
    var after := Passes(st, c, env, world, times);
    if after.g.pending != map[] {
      var id :| id in after.g.pending;
      NoBacklogMeansNothingPending(st.rules.maxDeliveries, after.g, after.g.lastDelivered + 1, id);
      assert false;
    }
  }
}
