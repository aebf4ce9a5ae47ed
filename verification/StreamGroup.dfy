/**
 * One stream, one consumer group on it, its pending list and the dead-letter stream, with the commands used on them.
 */
module StreamGroup {
  import opened Common
  import opened StreamFields
  import opened DeadLetters
  import opened Dispatch

  type Consumer = string

  datatype Delivery = Delivery(consumer: Consumer, deliveries: nat, deliveredAt: Instant)

  /** Stream ids are the positions of entries, in the order they were added. */
  datatype Group = Group(
    entries: map<StreamId, Fields>,
    lastId: StreamId,
    lastDelivered: StreamId,
    pending: map<StreamId, Delivery>,
    dead: seq<Fields>)

  datatype PendingEntry = PendingEntry(id: StreamId, deliveries: nat)

  datatype Settings = Settings(
    rules: Rules,
    group: string,
    batchSize: nat,
    claimIdleMs: nat,
    isoText: Instant -> string)

  function Xadd(g: Group, fields: Fields): Group {
    g.(entries := g.entries[g.lastId + 1 := fields], lastId := g.lastId + 1)
  }

  /** The server drops old entries; their pending records stay. */
  function Trim(g: Group, ids: set<StreamId>): Group {
    g.(entries := g.entries - ids)
  }

  predicate IsStale(g: Group, now: Instant, minIdleMs: nat, id: StreamId) {
    id in g.pending && now - g.pending[id].deliveredAt >= minIdleMs
  }

  /** XPENDING IDLE: the oldest `count` entries from `id` on that have been unacknowledged long enough. */
  function StaleFrom(g: Group, now: Instant, minIdleMs: nat, id: StreamId, count: nat): seq<PendingEntry>
    decreases g.lastDelivered + 1 - id
  {
    if count == 0 || id > g.lastDelivered then []
    else if IsStale(g, now, minIdleMs, id)
    then [PendingEntry(id, g.pending[id].deliveries)] + StaleFrom(g, now, minIdleMs, id + 1, count - 1)
    else StaleFrom(g, now, minIdleMs, id + 1, count)
  }

  function StalePending(g: Group, now: Instant, minIdleMs: nat, count: nat): seq<PendingEntry> {
    StaleFrom(g, now, minIdleMs, 0, count)
  }

  /** XCLAIM: nothing when someone else took the entry meanwhile; a trimmed entry also leaves the pending list. */
  function Claim(g: Group, now: Instant, consumer: Consumer, id: StreamId, minIdleMs: nat): (Group, Option<Entry>) {
    if id !in g.pending then (g, None)
    else if id !in g.entries then (g.(pending := g.pending - {id}), None)
    else if !IsStale(g, now, minIdleMs, id) then (g, None)
    else
      var taken := Delivery(consumer, g.pending[id].deliveries + 1, now);
      (g.(pending := g.pending[id := taken]), Some(Entry(id, Some(g.entries[id]))))
  }

  function NewFrom(g: Group, id: StreamId, count: nat): seq<Entry>
    decreases g.lastId + 1 - id
  {
    if count == 0 || id > g.lastId then []
    else if id in g.entries then [Entry(id, Some(g.entries[id]))] + NewFrom(g, id + 1, count - 1)
    else NewFrom(g, id + 1, count)
  }

  function IdsOf(entries: seq<Entry>): set<StreamId> {
    set i | 0 <= i < |entries| :: entries[i].id
  }

  /** XREADGROUP >: the next entries nobody was given yet; they become pending for this consumer. */
  function ReadNew(g: Group, now: Instant, consumer: Consumer, count: nat): (Group, seq<Entry>) {
    var entries := NewFrom(g, g.lastDelivered + 1, count);
    if entries == [] then (g, [])
    else
      var handedOut := map id | id in IdsOf(entries) :: Delivery(consumer, 1, now);
      (g.(lastDelivered := entries[|entries| - 1].id, pending := g.pending + handedOut), entries)
  }

  function Ack(g: Group, ids: seq<StreamId>): Group {
    g.(pending := g.pending - set id | id in ids)
  }

  function AddDead(g: Group, fields: Fields): Group {
    g.(dead := g.dead + [fields])
  }

  predicate HasPending(g: Group, consumer: Consumer) {
    exists id :: id in g.pending && g.pending[id].consumer == consumer
  }

  /** XGROUP DELCONSUMER: what was pending for the consumer is forgotten. */
  function DeleteConsumer(g: Group, consumer: Consumer): Group {
    g.(pending := map id | id in g.pending && g.pending[id].consumer != consumer :: g.pending[id])
  }

  function LetterOf(settings: Settings, consumer: Consumer, id: StreamId, death: DeadSettlement,
                    now: Instant): DeadLetter
  {
    DeadLetter(Decimal(id), settings.group, consumer, death.reason, death.attempts, death.error, settings.isoText(now))
  }

  // ---------- what the listings are ----------

  /** Group facts every command keeps: delivered ids are ids, pending ids were delivered. */
  predicate GroupOk(g: Group) {
    && g.lastDelivered <= g.lastId
    && (forall id :: id in g.entries ==> id <= g.lastId)
    && (forall id :: id in g.pending ==> id <= g.lastDelivered && g.pending[id].deliveries >= 1)
  }

  lemma {:induction false} StaleFromMeaning(g: Group, now: Instant, minIdleMs: nat, id: StreamId, count: nat)
    ensures var page := StaleFrom(g, now, minIdleMs, id, count);
            && |page| <= count
            && (forall i :: 0 <= i < |page| ==>
                  && id <= page[i].id && IsStale(g, now, minIdleMs, page[i].id)
                  && page[i].deliveries == g.pending[page[i].id].deliveries)
            && (forall i, j :: 0 <= i < j < |page| ==> page[i].id < page[j].id)
    decreases g.lastDelivered + 1 - id
  {
    if !(count == 0 || id > g.lastDelivered) {
      StaleFromMeaning(g, now, minIdleMs, id + 1, if IsStale(g, now, minIdleMs, id) then count - 1 else count);
    }
  }

  /** Every stale entry is on the page, unless the page is full of older ones. */
  lemma {:induction false} StaleFromMissesOnlyYounger(
    g: Group, now: Instant, minIdleMs: nat, id: StreamId, count: nat, wanted: StreamId)
    requires GroupOk(g) && IsStale(g, now, minIdleMs, wanted) && id <= wanted
    ensures var page := StaleFrom(g, now, minIdleMs, id, count);
            || PendingEntry(wanted, g.pending[wanted].deliveries) in page
            || (|page| == count && forall i :: 0 <= i < |page| ==> page[i].id < wanted)
    decreases g.lastDelivered + 1 - id
  {
    if !(count == 0 || id > g.lastDelivered || id == wanted) {
      var rest := if IsStale(g, now, minIdleMs, id) then count - 1 else count;
      StaleFromMissesOnlyYounger(g, now, minIdleMs, id + 1, rest, wanted);
    }
  }

  /** Entries of the stream from `id` on, in stream order. */
  predicate IsRead(g: Group, id: StreamId, page: seq<Entry>) {
    && (forall i :: 0 <= i < |page| ==>
          && id <= page[i].id <= g.lastId && page[i].id in g.entries
          && page[i].fields == Some(g.entries[page[i].id]))
    && (forall i, j :: 0 <= i < j < |page| ==> page[i].id < page[j].id)
  }

  lemma {:induction false} NewFromMeaning(g: Group, id: StreamId, count: nat)
    ensures IsRead(g, id, NewFrom(g, id, count))
    decreases g.lastId + 1 - id
  {
    if !(count == 0 || id > g.lastId) {
      NewFromMeaning(g, id + 1, if id in g.entries then count - 1 else count);
    }
  }

  /** A read passes over no entry. */
  lemma {:induction false} NewFromPassesOverNothing(g: Group, id: StreamId, count: nat, wanted: StreamId)
    requires wanted in g.entries && id <= wanted
    requires var page := NewFrom(g, id, count); page != [] && wanted <= page[|page| - 1].id
    ensures wanted in IdsOf(NewFrom(g, id, count))
    decreases g.lastId + 1 - id
  {
    var page := NewFrom(g, id, count);
    if id !in g.entries {
      NewFromPassesOverNothing(g, id + 1, count, wanted);
    } else if id == wanted {
      assert page[0].id == wanted;
    } else {
      var rest := NewFrom(g, id + 1, count - 1);
      assert page == [page[0]] + rest;
      NewFromPassesOverNothing(g, id + 1, count - 1, wanted);
      var i :| 0 <= i < |rest| && rest[i].id == wanted;
      assert page[i + 1].id == wanted;
    }
  }

  /** A read is cut only by the batch size: an entry is missing only behind a full batch. */
  lemma {:induction false} NewFromIsFull(g: Group, id: StreamId, count: nat, wanted: StreamId)
    requires wanted in g.entries && id <= wanted <= g.lastId
    ensures var page := NewFrom(g, id, count);
            && |page| <= count
            && (wanted in IdsOf(page) || (|page| == count && forall i :: 0 <= i < |page| ==> page[i].id < wanted))
    decreases g.lastId + 1 - id
  {
    var page := NewFrom(g, id, count);
    if count > 0 && id < wanted {
      NewFromIsFull(g, id + 1, if id in g.entries then count - 1 else count, wanted);
      if id in g.entries {
        var rest := NewFrom(g, id + 1, count - 1);
        assert page == [page[0]] + rest;
        if wanted in IdsOf(rest) {
          var i :| 0 <= i < |rest| && rest[i].id == wanted;
          assert page[i + 1].id == wanted;
        }
      }
    } else if count > 0 {
      assert page[0].id == wanted;
      NewFromIsShort(g, id, count);
    }
  }

  lemma {:induction false} NewFromIsShort(g: Group, id: StreamId, count: nat)
    ensures |NewFrom(g, id, count)| <= count
    decreases g.lastId + 1 - id
  {
    if count > 0 && id <= g.lastId {
      NewFromIsShort(g, id + 1, if id in g.entries then count - 1 else count);
    }
  }

  /** Reading hands each new entry to this consumer, now and for the first time, and moves past them. */
  lemma ReadingHandsOut(g: Group, now: Instant, consumer: Consumer, count: nat)
    ensures var (after, entries) := ReadNew(g, now, consumer, count);
            && entries == NewFrom(g, g.lastDelivered + 1, count)
            && after == g.(pending := after.pending, lastDelivered := after.lastDelivered)
            && after.lastDelivered == (if entries == [] then g.lastDelivered else entries[|entries| - 1].id)
            && (forall x :: x in after.pending <==> x in g.pending || x in IdsOf(entries))
            && (forall x :: x in IdsOf(entries) ==> after.pending[x] == Delivery(consumer, 1, now))
            && (forall x :: x in g.pending && x !in IdsOf(entries) ==> after.pending[x] == g.pending[x])
  {
  }

  /** One acknowledgement takes all its entries, and only these, off the pending list. */
  lemma AckTakesAll(g: Group, ids: seq<StreamId>)
    ensures var after := Ack(g, ids);
            && after == g.(pending := after.pending)
            && (forall x :: x in after.pending <==> x in g.pending && x !in ids)
            && (forall x :: x in after.pending ==> after.pending[x] == g.pending[x])
  {
  }

  /**
   * A claim that gives an entry counts one more delivery, makes the claimer its owner, and shuts every other consumer
   * out until the entry has been idle for the claim time again.
   */
  lemma ClaimsExcludeEachOther(
    g: Group, now: Instant, consumer: Consumer, id: StreamId, minIdleMs: nat, later: Instant, other: Consumer)
    requires Claim(g, now, consumer, id, minIdleMs).1.Some?
    ensures var (after, entry) := Claim(g, now, consumer, id, minIdleMs);
            && entry.value.id == id && entry.value.fields.Some? && id in g.entries
            && entry.value.fields.value == g.entries[id]
            && id in g.pending && id in after.pending && after.pending[id].consumer == consumer
            && after.pending[id].deliveries == g.pending[id].deliveries + 1
            && (Claim(after, later, other, id, minIdleMs).1.Some? <==> later - now >= minIdleMs)
            && (forall x :: x != id ==>
                 Claim(after, later, other, x, minIdleMs).1 == Claim(g, later, other, x, minIdleMs).1)
  {
  }

  /** A claim that gives nothing changes nothing, except that an entry the stream has dropped is no longer pending. */
  lemma EmptyClaimsTouchOnlyTrimmedEntries(g: Group, now: Instant, consumer: Consumer, id: StreamId, minIdleMs: nat)
    requires Claim(g, now, consumer, id, minIdleMs).1.None?
    ensures var after := Claim(g, now, consumer, id, minIdleMs).0;
            && (id in g.entries ==> after == g)
            && (id !in g.entries ==> id !in after.pending)
            && (forall x :: x != id ==> (x in after.pending <==> x in g.pending))
  {
  }
}
