/** What a worker leaves pending, and what its dead letters tell. */
module GroupSettlements {
  import opened Common
  import opened StreamFields
  import opened DeadLetters
  import opened Dispatch
  import opened StreamGroup
  import opened GroupWorker

  /** From the given call on, the handler was called for the entry and threw. */
  predicate Throws(env: Env, calls: seq<HandlerCall>, from: nat, id: StreamId) {
    exists k :: from <= k < |calls| && calls[k].id == id && env.answers(calls[..k], calls[k]).Threw?
  }

  predicate DistinctIds(entries: seq<Entry>) {
    forall i, j :: 0 <= i < j < |entries| ==> entries[i].id != entries[j].id
  }

  /** One entry: off the list unless it is skipped or its handler threw below the limit. */
  lemma OneSettlement(st: Settings, c: Consumer, env: Env, now: Instant, world: World, entry: Entry, attempt: nat)
    ensures var (after, settlement) := SettledWorld(st, c, env, now, world, entry, attempt);
            var given := IsGiven(st.rules, entry, attempt);
            && after.g.pending == (if settlement.Skipped? || settlement.Retry? then world.g.pending
                                   else world.g.pending - {entry.id})
            && after.g.entries == world.g.entries && after.g.lastId == world.g.lastId
            && after.g.lastDelivered == world.g.lastDelivered
            && (if given then |after.calls| == |world.calls| + 1 && after.calls[..|world.calls|] == world.calls
                              && after.calls[|world.calls|].id == entry.id
                else after.calls == world.calls)
            && (settlement.Retry?
                <==> given && attempt < st.rules.maxDeliveries
                     && env.answers(world.calls, after.calls[|world.calls|]).Threw?)
  {
    assert (set x | x in [entry.id]) == {entry.id};
    HandlerSeesExactly(st.rules, entry, attempt);
  }

  lemma HeadAndTail(entries: seq<Entry>, x: StreamId)
    requires entries != []
    ensures x in IdsOf(entries) <==> x == entries[0].id || x in IdsOf(entries[1..])
  {
    if x in IdsOf(entries[1..]) {
      var i :| 0 <= i < |entries[1..]| && entries[1..][i].id == x;
      assert entries[i + 1].id == x;
    }
    if x in IdsOf(entries) {
      var i :| 0 <= i < |entries| && entries[i].id == x;
      assert i > 0 ==> entries[1..][i - 1].id == x;
    }
  }

  /** What the loop over new entries keeps, with the ids already skipped. */
  predicate BatchIsSettled(st: Settings, env: Env, world: World, entries: seq<Entry>, skipped: seq<StreamId>,
                           after: World) {
    && |world.calls| <= |after.calls| && after.calls[..|world.calls|] == world.calls
    && (forall k :: |world.calls| <= k < |after.calls| ==> after.calls[k].id in IdsOf(entries))
    && (forall x :: x in after.g.pending ==> x in world.g.pending && after.g.pending[x] == world.g.pending[x])
    && (forall x :: x in world.g.pending && x !in IdsOf(entries) ==> (x in after.g.pending <==> x !in skipped))
    && (forall x :: x in world.g.pending && x in IdsOf(entries) ==>
          (x in after.g.pending <==> 1 < st.rules.maxDeliveries && Throws(env, after.calls, |world.calls|, x)))
  }

  lemma ThrowsLater(env: Env, calls: seq<HandlerCall>, from: nat, id: StreamId)
    requires from < |calls|
    ensures Throws(env, calls, from, id)
       <==> (calls[from].id == id && env.answers(calls[..from], calls[from]).Threw?) || Throws(env, calls, from + 1, id)
  {
  }

  /** The rest of the batch is settled after its first entry. */
  lemma FirstOfBatch(st: Settings, c: Consumer, env: Env, now: Instant, world: World, entries: seq<Entry>,
                     skipped: seq<StreamId>, after: World)
    requires entries != [] && DistinctIds(entries) && forall i :: 0 <= i < |entries| ==> entries[i].id !in skipped
    requires var (next, settlement) := SettledWorld(st, c, env, now, world, entries[0], 1);
             BatchIsSettled(st, env, next, entries[1..],
                            if settlement.Skipped? then skipped + [entries[0].id] else skipped, after)
    ensures BatchIsSettled(st, env, world, entries, skipped, after)
  {
    var (next, settlement) := SettledWorld(st, c, env, now, world, entries[0], 1);
    var first := entries[0].id;
    OneSettlement(st, c, env, now, world, entries[0], 1);
    assert first !in IdsOf(entries[1..]);
    forall x
      ensures x in IdsOf(entries) <==> x == first || x in IdsOf(entries[1..])
    {
      HeadAndTail(entries, x);
    }
    assert after.calls[..|world.calls|] == after.calls[..|next.calls|][..|world.calls|];
    forall x
      ensures Throws(env, after.calls, |world.calls|, x)
         <==> Throws(env, after.calls, |next.calls|, x) || (x == first && settlement.Retry?)
              || (x == first && 1 >= st.rules.maxDeliveries && Throws(env, after.calls, |world.calls|, x))
    {
      CallOfTheFirst(st, c, env, now, world, entries[0], after, x);
    }
  }

  lemma CallOfTheFirst(st: Settings, c: Consumer, env: Env, now: Instant, world: World, entry: Entry, after: World,
                       x: StreamId)
    requires var next := SettledWorld(st, c, env, now, world, entry, 1).0;
             |next.calls| <= |after.calls| && after.calls[..|next.calls|] == next.calls
    ensures var (next, settlement) := SettledWorld(st, c, env, now, world, entry, 1);
            Throws(env, after.calls, |world.calls|, x)
            <==> Throws(env, after.calls, |next.calls|, x) || (x == entry.id && settlement.Retry?)
                 || (x == entry.id && 1 >= st.rules.maxDeliveries && Throws(env, after.calls, |world.calls|, x))
  {
    var (next, settlement) := SettledWorld(st, c, env, now, world, entry, 1);
    OneSettlement(st, c, env, now, world, entry, 1);
    if IsGiven(st.rules, entry, 1) {
      var n := |world.calls|;
      assert after.calls[n] == next.calls[n] && after.calls[..n] == after.calls[..n + 1][..n] == world.calls;
      ThrowsLater(env, after.calls, n, x);
    }
  }

  lemma {:induction false} BatchSettles(st: Settings, c: Consumer, env: Env, now: Instant, world: World,
                                        entries: seq<Entry>, skipped: seq<StreamId>)
    requires DistinctIds(entries) && forall i :: 0 <= i < |entries| ==> entries[i].id !in skipped
    ensures BatchIsSettled(st, env, world, entries, skipped, BatchRun(st, c, env, now, world, entries, skipped))
    decreases |entries|
  {
    if entries == [] {
      AckTakesAll(world.g, skipped);
    } else {
      var (next, settlement) := SettledWorld(st, c, env, now, world, entries[0], 1);
      var more := if settlement.Skipped? then skipped + [entries[0].id] else skipped;
      BatchSettles(st, c, env, now, next, entries[1..], more);
      FirstOfBatch(st, c, env, now, world, entries, skipped,
        BatchRun(st, c, env, now, next, entries[1..], more));
    }
  }

  /**
   * Of the entries just read, exactly those stay pending whose handler threw below the delivery limit; everything
   * else that was pending stays as it was.
   */
  lemma BatchLeavesExactlyTheRetries(st: Settings, c: Consumer, env: Env, now: Instant, world: World, id: StreamId)
    requires GroupOk(world.g)
    ensures var (g, entries) := ReadNew(world.g, now, c, st.batchSize);
            var after := BatchRun(st, c, env, now, world.(g := g), entries, []);
            if id in IdsOf(entries) then
              && (id in after.g.pending
                  <==> 1 < st.rules.maxDeliveries && Throws(env, after.calls, |world.calls|, id))
              && (id in after.g.pending ==> after.g.pending[id] == Delivery(c, 1, now))
            else
              && (id in after.g.pending <==> id in world.g.pending)
              && (id in after.g.pending ==> after.g.pending[id] == world.g.pending[id])
  {
    var (g, entries) := ReadNew(world.g, now, c, st.batchSize);
    ReadingHandsOut(world.g, now, c, st.batchSize);
    NewFromMeaning(world.g, world.g.lastDelivered + 1, st.batchSize);
    BatchSettles(st, c, env, now, world.(g := g), entries, []);
  }

  /** A trimmed entry is dropped by its claim; any other is given to the claimer once more. */
  lemma ClaimingAStaleEntry(st: Settings, c: Consumer, now: Instant, g: Group, listed: PendingEntry)
    requires IsStale(g, now, st.claimIdleMs, listed.id) && g.pending[listed.id].deliveries == listed.deliveries
    ensures var (h, claimed) := Claim(g, now, c, listed.id, st.claimIdleMs);
            && (claimed.None? ==> h.pending == g.pending - {listed.id})
            && (claimed.Some? ==> claimed.value.id == listed.id && listed.id in h.pending
                                  && h.pending[listed.id] == Delivery(c, listed.deliveries + 1, now)
                                  && h.pending - {listed.id} == g.pending - {listed.id})
  {
  }

  /**
   * The entry is pending afterwards, with this delivery, exactly when its handler was called, at an attempt below the
   * limit, and threw; the other pending entries are as they were.
   */
  predicate LeavesARetry(st: Settings, env: Env, calls: seq<HandlerCall>, pending: map<StreamId, Delivery>,
                         id: StreamId, delivery: Delivery, after: World)
  {
    && (id in after.g.pending
        <==> delivery.deliveries < st.rules.maxDeliveries && Throws(env, after.calls, |calls|, id))
    && (id in after.g.pending ==> after.g.pending[id] == delivery)
    && after.g.pending - {id} == pending - {id}
  }

  lemma ClaimedLeavesARetry(st: Settings, c: Consumer, env: Env, now: Instant, world: World, entry: Entry)
    requires entry.id in world.g.pending
    ensures var delivery := world.g.pending[entry.id];
            LeavesARetry(st, env, world.calls, world.g.pending, entry.id, delivery,
                         AfterClaim(st, c, env, now, world, entry, delivery.deliveries))
  {
    var attempt := world.g.pending[entry.id].deliveries;
    var settled := SettledWorld(st, c, env, now, world, entry, attempt).0;
    OneSettlement(st, c, env, now, world, entry, attempt);
    AckTakesAll(settled.g, [entry.id]);
    if |settled.calls| > |world.calls| {
      ThrowsLater(env, settled.calls, |world.calls|, entry.id);
    }
  }

  lemma RetryOfTheSameRest(st: Settings, env: Env, calls: seq<HandlerCall>, pending: map<StreamId, Delivery>,
                           claimed: map<StreamId, Delivery>, id: StreamId, delivery: Delivery, after: World)
    requires claimed - {id} == pending - {id} && LeavesARetry(st, env, calls, claimed, id, delivery, after)
    ensures LeavesARetry(st, env, calls, pending, id, delivery, after)
  {
  }

  /** What a worker leaves that goes on with an entry it has just claimed, or with nothing. */
  lemma GoingOnLeavesARetry(st: Settings, c: Consumer, env: Env, now: Instant, pending: map<StreamId, Delivery>,
                            taken: World, claimed: Option<Entry>, id: StreamId, delivery: Delivery)
    requires claimed.None? ==> taken.g.pending == pending - {id}
    requires claimed.Some? ==> claimed.value.id == id && id in taken.g.pending && taken.g.pending[id] == delivery
                               && taken.g.pending - {id} == pending - {id}
    ensures LeavesARetry(st, env, taken.calls, pending, id, delivery,
                         GoingOn(st, c, env, now, taken, claimed, delivery.deliveries))
  {
    if claimed.Some? {
      ClaimedLeavesARetry(st, c, env, now, taken, claimed.value);
      RetryOfTheSameRest(st, env, taken.calls, pending, taken.g.pending, id, delivery,
        GoingOn(st, c, env, now, taken, claimed, delivery.deliveries));
    }
  }

  lemma StaleEntryLeavesARetry(st: Settings, c: Consumer, env: Env, now: Instant, world: World, listed: PendingEntry,
                               g: Group, claimed: Option<Entry>, delivery: Delivery)
    requires IsStale(world.g, now, st.claimIdleMs, listed.id)
    requires world.g.pending[listed.id].deliveries == listed.deliveries
    requires Claim(world.g, now, c, listed.id, st.claimIdleMs) == (g, claimed)
    requires delivery == Delivery(c, listed.deliveries + 1, now)
    ensures LeavesARetry(st, env, world.calls, world.g.pending, listed.id, delivery,
                         GoingOn(st, c, env, now, world.(g := g), claimed, delivery.deliveries))
  {
    ClaimingAStaleEntry(st, c, now, world.g, listed);
    GoingOnLeavesARetry(st, c, env, now, world.g.pending, world.(g := g), claimed, listed.id, delivery);
  }

  lemma ReclaimedIsGoingOn(st: Settings, c: Consumer, env: Env, now: Instant, world: World, listed: PendingEntry,
                           g: Group, claimed: Option<Entry>, attempt: nat)
    requires Claim(world.g, now, c, listed.id, st.claimIdleMs) == (g, claimed) && attempt == listed.deliveries + 1
    ensures Reclaimed(st, c, env, now, world, listed) == GoingOn(st, c, env, now, world.(g := g), claimed, attempt)
  {
  }

  /**
   * A stale entry that is claimed again stays pending exactly when its handler is called and throws below the limit;
   * everything else stays as it was.
   */
  lemma ReclaimingLeavesExactlyTheRetries(st: Settings, c: Consumer, env: Env, now: Instant, world: World,
                                          listed: PendingEntry, delivery: Delivery)
    requires IsStale(world.g, now, st.claimIdleMs, listed.id)
    requires world.g.pending[listed.id].deliveries == listed.deliveries
    requires delivery == Delivery(c, listed.deliveries + 1, now)
    ensures LeavesARetry(st, env, world.calls, world.g.pending, listed.id, delivery,
                         Reclaimed(st, c, env, now, world, listed))
  {
    var (g, claimed) := Claim(world.g, now, c, listed.id, st.claimIdleMs);
    ReclaimedIsGoingOn(st, c, env, now, world, listed, g, claimed, delivery.deliveries);
    StaleEntryLeavesARetry(st, c, env, now, world, listed, g, claimed, delivery);
  }

  // ---------- dead letters ----------

  /** The letter of an entry tells where it comes from, who gave it up, when and why. */
  predicate Tells(st: Settings, c: Consumer, now: Instant, entry: Entry, s: DeadSettlement, letter: Fields) {
    && ValueOf(letter, "dead.sourceId") == Some(Decimal(entry.id)) && ValueOf(letter, "dead.group") == Some(st.group)
    && ValueOf(letter, "dead.consumer") == Some(c) && ValueOf(letter, "dead.reason") == Some(ReasonText(s.reason))
    && ValueOf(letter, "dead.attempts").Some? && DecimalValue(ValueOf(letter, "dead.attempts").value) == s.attempts
    && ValueOf(letter, "dead.error").Some? && ValueOf(letter, "dead.error").value <= s.error
    && ValueOf(letter, "dead.at") == Some(st.isoText(now))
    && Kept(letter) == Kept(if entry.fields.Some? then entry.fields.value else [])
  }

  lemma PrefixedNames()
    ensures SOURCE_ID == "dead.sourceId" && GROUP == "dead.group" && CONSUMER == "dead.consumer"
    ensures REASON == "dead.reason" && ATTEMPTS == "dead.attempts" && ERROR == "dead.error" && AT == "dead.at"
  {
  }

  /** A given-up entry leaves one letter that tells its story, and no other entry leaves any. */
  lemma LettersTellTheStory(st: Settings, c: Consumer, env: Env, now: Instant, world: World, entry: Entry, attempt: nat)
    ensures var (after, s) := SettledWorld(st, c, env, now, world, entry, attempt);
            if s.Dead? then
              && |after.g.dead| == |world.g.dead| + 1 && world.g.dead <= after.g.dead
              && Tells(st, c, now, entry, s, after.g.dead[|world.g.dead|])
            else after.g.dead == world.g.dead
  {
    var (after, s) := SettledWorld(st, c, env, now, world, entry, attempt);
    if s.Dead? {
      var letter := LetterOf(st, c, entry.id, s, now);
      PrefixedNames();
      MetadataReadsBack(entry.fields, letter);
      ReplayingRestoresTheOriginal(OrEmpty(entry.fields), letter);
      assert DeadLetterFields(entry.fields, letter) == DeadLetterFields(Some(OrEmpty(entry.fields)), letter);
    }
  }
}
