/**
 * How often an entry reaches its handler. A worker lists stale entries first and claims them later, so the
 * delivery count it judges by may be out of date by then: each further worker can add one call.
 */
module HandlerCalls {
  import opened Common
  import opened Dispatch
  import opened StreamGroup
  import opened GroupProtocol

  function CallsOf(calls: seq<StreamId>, id: StreamId): nat {
    if calls == [] then 0 else CallsOf(calls[..|calls| - 1], id) + if calls[|calls| - 1] == id then 1 else 0
  }

  // ---------- what a worker holds ----------

  predicate Lists(stale: seq<PendingEntry>, id: StreamId, limit: nat) {
    exists i :: 0 <= i < |stale| && stale[i].id == id && stale[i].deliveries < limit
  }

  predicate NextHolds(next: Next, id: StreamId) {
    next.InBatch? && id in IdsOf(next.entries)
  }

  predicate NextLists(next: Next, id: StreamId, limit: nat) {
    next.InReclaim? && Lists(next.stale, id, limit)
  }

  /** The worker was given the entry and may still call its handler. */
  predicate Holds(w: Worker, id: StreamId) {
    match w
    case Batch(entries, _) => id in IdsOf(entries)
    case Calling(entry, _, next) => entry.id == id || NextHolds(next, id)
    case Handling(_, _, next) => NextHolds(next, id)
    case Acking(_, next) => NextHolds(next, id)
    case DeadAdding(_, _, next) => NextHolds(next, id)
    case DeadAcking(_, next) => NextHolds(next, id)
    case _ => false
  }

  /** The worker's listing shows the entry with less than `limit` deliveries. */
  predicate HoldsListing(w: Worker, id: StreamId, limit: nat) {
    match w
    case Reclaiming(stale) => Lists(stale, id, limit)
    case Calling(_, _, next) => NextLists(next, id, limit)
    case Handling(_, _, next) => NextLists(next, id, limit)
    case Acking(_, next) => NextLists(next, id, limit)
    case DeadAdding(_, _, next) => NextLists(next, id, limit)
    case DeadAcking(_, next) => NextLists(next, id, limit)
    case _ => false
  }

  predicate AscendingStale(stale: seq<PendingEntry>) {
    forall i, j :: 0 <= i < j < |stale| ==> stale[i].id < stale[j].id
  }

  predicate Ascending(entries: seq<Entry>) {
    forall i, j :: 0 <= i < j < |entries| ==> entries[i].id < entries[j].id
  }

  predicate NextNeat(next: Next) {
    match next
    case InReclaim(stale) => AscendingStale(stale)
    case InBatch(entries, _) => Ascending(entries)
  }

  /** No worker holds an entry twice. */
  predicate Neat(w: Worker) {
    match w
    case Reclaiming(stale) => AscendingStale(stale)
    case Batch(entries, _) => Ascending(entries)
    case Calling(entry, _, next) => NextNeat(next) && !NextHolds(next, entry.id)
    case Handling(_, _, next) => NextNeat(next)
    case Acking(_, next) => NextNeat(next)
    case DeadAdding(_, _, next) => NextNeat(next)
    case DeadAcking(_, next) => NextNeat(next)
    case _ => true
  }

  // ---------- one worker's share in an entry ----------

  /** One entry as one worker sees it: its recorded deliveries while pending, and what the worker holds of it. */
  datatype Share = Share(pending: Option<nat>, called: nat, holds: bool, lists: bool)

  function ShareOf(g: Group, w: Worker, id: StreamId, limit: nat, called: nat): Share {
    Share(PendingCount(g, id), called, Holds(w, id), HoldsListing(w, id, limit))
  }

  /** Nothing is gained, except that a fresh listing may show the entry below the limit. */
  predicate Rests(limit: nat, a: Share, b: Share) {
    && b.called == a.called && (b.holds ==> a.holds)
    && (b.lists ==> a.lists || (a.pending.Some? && a.pending.value < limit))
    && (b.pending == a.pending || b.pending.None?)
  }

  predicate Calls(a: Share, b: Share) {
    b.called == a.called + 1 && a.holds && !b.holds && (b.lists ==> a.lists) && b.pending == a.pending
  }

  /** A claim judged by a listing that showed `listed` deliveries. */
  predicate Claims(limit: nat, listed: nat, a: Share, b: Share) {
    && a.pending.Some? && b.pending == Some(a.pending.value + 1) && b.called == a.called
    && !a.holds && !b.lists && (b.holds ==> listed < limit && a.lists)
  }

  predicate FirstRead(a: Share, b: Share) {
    a.pending.None? && b.pending == Some(1) && b.called == a.called && !a.holds && !b.lists
  }

  // ---------- every step of a worker is one of these ----------

  lemma AfterSettlementRests(entry: Entry, settlement: Settlement, next: Next, id: StreamId, limit: nat)
    requires NextNeat(next)
    ensures var w := AfterSettlement(entry, settlement, next);
            && Neat(w)
            && (Holds(w, id) ==> NextHolds(next, id))
            && (HoldsListing(w, id, limit) ==> NextLists(next, id, limit))
  {
  }

  lemma AfterExaminationRests(rules: Rules, entry: Entry, attempt: nat, next: Next, id: StreamId, limit: nat)
    requires NextNeat(next) && !NextHolds(next, entry.id)
    ensures var w := AfterExamination(rules, entry, attempt, next);
            && Neat(w)
            && (Holds(w, id) ==> NextHolds(next, id) || (id == entry.id && attempt <= rules.maxDeliveries))
            && (HoldsListing(w, id, limit) ==> NextLists(next, id, limit))
  {
    match Examine(rules, entry, attempt)
    case GiveToHandler(_) =>
    case Settled(settlement) => AfterSettlementRests(entry, settlement, next, id, limit);
  }

  lemma TailLists(stale: seq<PendingEntry>, id: StreamId, limit: nat)
    requires stale != [] && AscendingStale(stale)
    ensures AscendingStale(stale[1..])
    ensures Lists(stale[1..], id, limit) ==> Lists(stale, id, limit) && id != stale[0].id
    ensures stale[0].deliveries < limit ==> Lists(stale, stale[0].id, limit)
  {
    if Lists(stale[1..], id, limit) {
      var i :| 0 <= i < |stale[1..]| && stale[1..][i].id == id && stale[1..][i].deliveries < limit;
      assert stale[i + 1].id == id;
    }
  }

  lemma TailIds(entries: seq<Entry>)
    requires entries != [] && Ascending(entries)
    ensures Ascending(entries[1..]) && entries[0].id !in IdsOf(entries[1..])
    ensures forall id :: id in IdsOf(entries) <==> id == entries[0].id || id in IdsOf(entries[1..])
  {
    forall id | id in IdsOf(entries)
      ensures id == entries[0].id || id in IdsOf(entries[1..])
    {
      var i :| 0 <= i < |entries| && entries[i].id == id;
      if i > 0 {
        assert entries[1..][i - 1].id == id;
      }
    }
    forall id | id in IdsOf(entries[1..])
      ensures id in IdsOf(entries) && id != entries[0].id
    {
      var i :| 0 <= i < |entries[1..]| && entries[1..][i].id == id;
      assert entries[i + 1].id == id;
    }
    assert entries[0].id in IdsOf(entries);
  }

  /** Claiming the first listed entry. */
  predicate ClaimIsAccounted(st: Settings, g: Group, stale: seq<PendingEntry>, h: Group, v: Worker, id: StreamId,
                             called: nat)
    requires stale != []
  {
    var limit := st.rules.maxDeliveries;
    var a, b := ShareOf(g, Reclaiming(stale), id, limit, called), ShareOf(h, v, id, limit, called);
    Neat(v) && (Rests(limit, a, b) || (id == stale[0].id && Claims(limit, stale[0].deliveries, a, b)))
  }

  /** Claiming the first listed entry. */
  lemma ClaimMoves(st: Settings, c: Consumer, g: Group, now: Instant, stale: seq<PendingEntry>, outcome: Outcome,
                   id: StreamId, called: nat)
    requires stale != [] && AscendingStale(stale)
    ensures var (h, v) := WorkerStep(st, c, g, now, Reclaiming(stale), outcome, false);
            ClaimIsAccounted(st, g, stale, h, v, id, called)
  {
    TailLists(stale, id, st.rules.maxDeliveries);
    if Claim(g, now, c, stale[0].id, st.claimIdleMs).1.Some? {
      ClaimedMoves(st, c, g, now, stale, id, called);
    }
  }

  lemma ClaimedMoves(st: Settings, c: Consumer, g: Group, now: Instant, stale: seq<PendingEntry>, id: StreamId,
                     called: nat)
    requires stale != [] && AscendingStale(stale) && Claim(g, now, c, stale[0].id, st.claimIdleMs).1.Some?
    ensures var (h, claimed) := Claim(g, now, c, stale[0].id, st.claimIdleMs);
            var v := AfterExamination(st.rules, claimed.value, stale[0].deliveries + 1, InReclaim(stale[1..]));
            ClaimIsAccounted(st, g, stale, h, v, id, called)
  {
    var limit := st.rules.maxDeliveries;
    var claimed := Claim(g, now, c, stale[0].id, st.claimIdleMs).1;
    TailLists(stale, id, limit);
    AfterExaminationRests(st.rules, claimed.value, stale[0].deliveries + 1, InReclaim(stale[1..]), id, limit);
  }

  lemma ListMoves(st: Settings, g: Group, now: Instant, id: StreamId, called: nat)
    ensures var limit := st.rules.maxDeliveries;
            var v := Reclaiming(StalePending(g, now, st.claimIdleMs, st.batchSize));
            Neat(v) && Rests(limit, ShareOf(g, Reading, id, limit, called), ShareOf(g, v, id, limit, called))
  {
    StaleFromMeaning(g, now, st.claimIdleMs, 0, st.batchSize);
  }

  /** Reading new entries: each is delivered for the first time. */
  lemma ReadMoves(st: Settings, c: Consumer, g: Group, now: Instant, id: StreamId, called: nat)
    requires GroupOk(g)
    ensures var limit := st.rules.maxDeliveries;
            var (h, entries) := ReadNew(g, now, c, st.batchSize);
            var a, b := ShareOf(g, ReadingNew, id, limit, called), ShareOf(h, Batch(entries, []), id, limit, called);
            && Ascending(entries)
            && (Rests(limit, a, b) || (id > g.lastDelivered && FirstRead(a, b)))
  {
    NewFromMeaning(g, g.lastDelivered + 1, st.batchSize);
    var entries := NewFrom(g, g.lastDelivered + 1, st.batchSize);
    if id in IdsOf(entries) {
      var i :| 0 <= i < |entries| && entries[i].id == id;
      assert i < |entries| - 1 ==> entries[i].id < entries[|entries| - 1].id;
    }
  }

  /** The delivery count the worker is about to judge by. */
  function Listed(w: Worker): nat {
    if w.Reclaiming? && w.stale != [] then w.stale[0].deliveries else 0
  }

  predicate Moves(limit: nat, g: Group, id: StreamId, listed: nat, a: Share, b: Share) {
    || Rests(limit, a, b) || Calls(a, b) || Claims(limit, listed, a, b)
    || (id > g.lastDelivered && FirstRead(a, b))
  }

  predicate IsAccounted(st: Settings, c: Consumer, g: Group, now: Instant, w: Worker, outcome: Outcome, stop: bool,
                        id: StreamId, called: nat) {
    var (h, v) := WorkerStep(st, c, g, now, w, outcome, stop);
    var limit := st.rules.maxDeliveries;
    var after := if w.Calling? && w.entry.id == id then called + 1 else called;
    var a, b := ShareOf(g, w, id, limit, called), ShareOf(h, v, id, limit, after);
    && Neat(v)
    && (|| Rests(limit, a, b) || Calls(a, b)
        || (w.Reclaiming? && w.stale != [] && w.stale[0].id == id && Claims(limit, w.stale[0].deliveries, a, b))
        || (id > g.lastDelivered && FirstRead(a, b)))
  }

  lemma EntryMoves(st: Settings, c: Consumer, g: Group, now: Instant, w: Worker, outcome: Outcome, stop: bool,
                   id: StreamId, called: nat)
    requires Neat(w) && !w.Reclaiming? && !w.Reading? && !w.ReadingNew?
    ensures IsAccounted(st, c, g, now, w, outcome, stop, id, called)
  {
    var limit := st.rules.maxDeliveries;
    match w
    case Batch(_, _) => BatchMoves(st, c, g, now, w, outcome, stop, id, called);
    case Handling(entry, attempt, next) =>
      AfterSettlementRests(entry, Conclude(st.rules, attempt, outcome), next, id, limit);
    case _ =>
  }

  lemma BatchMoves(st: Settings, c: Consumer, g: Group, now: Instant, w: Worker, outcome: Outcome, stop: bool,
                   id: StreamId, called: nat)
    requires Neat(w) && w.Batch?
    ensures IsAccounted(st, c, g, now, w, outcome, stop, id, called)
  {
    if w.entries != [] {
      TailIds(w.entries);
      AfterExaminationRests(st.rules, w.entries[0], 1, InBatch(w.entries[1..], w.skipped), id, st.rules.maxDeliveries);
    }
  }

  lemma StepIsAccounted(st: Settings, c: Consumer, g: Group, now: Instant, w: Worker, outcome: Outcome, stop: bool,
                        id: StreamId, called: nat)
    requires GroupOk(g) && Neat(w)
    ensures IsAccounted(st, c, g, now, w, outcome, stop, id, called)
  {
    match w
    case Reclaiming(stale) =>
      if !stop && stale != [] {
        ClaimMoves(st, c, g, now, stale, outcome, id, called);
      }
    case Reading => ListMoves(st, g, now, id, called);
    case ReadingNew => ReadMoves(st, c, g, now, id, called);
    case _ => EntryMoves(st, c, g, now, w, outcome, stop, id, called);
  }

  // ---------- counting over all workers ----------

  function Holders(workers: map<Consumer, Worker>, id: StreamId): set<Consumer> {
    set c | c in workers && Holds(workers[c], id)
  }

  function Listers(workers: map<Consumer, Worker>, id: StreamId, limit: nat): set<Consumer> {
    set c | c in workers && HoldsListing(workers[c], id, limit)
  }

  function One(b: bool): nat {
    if b then 1 else 0
  }

  function PendingCount(g: Group, id: StreamId): Option<nat> {
    if id in g.pending then Some(g.pending[id].deliveries) else None
  }

  /**
   * The most calls n workers can make for one entry: each of them but one can hold a listing from before the limit was
   * reached. With a limit of one there is no such listing, since a listed entry has been delivered already.
   */
  function MostCalls(limit: nat, n: nat): nat
    requires n >= 1
  {
    if limit == 1 then 1 else limit + n - 1
  }

  /**
   * The calls made and the calls still possible. Below the limit every call answers one delivery; from the limit
   * on, only listings read before it can add calls, at most one for each worker but the one that reached it.
   */
  predicate Within(limit: nat, n: nat, g: Group, id: StreamId, called: nat, holders: nat, listers: nat)
    requires n >= 1
  {
    match PendingCount(g, id)
    case Some(d) => if d < limit then called + holders <= d else called + holders + listers <= MostCalls(limit, n)
    case None =>
      if id > g.lastDelivered then called == 0 && holders == 0 && listers == 0
      else called + holders <= MostCalls(limit, n)
  }

  lemma MovesStayWithin(limit: nat, n: nat, g: Group, h: Group, id: StreamId, listed: nat, a: Share, b: Share, t: nat,
                        s: nat)
    requires limit >= 1 && n >= 1 && s < n
    requires a.pending == PendingCount(g, id) && b.pending == PendingCount(h, id) && g.lastDelivered <= h.lastDelivered
    requires GroupOk(g) && GroupOk(h) && Within(limit, n, g, id, a.called, t + One(a.holds), s + One(a.lists))
    requires Moves(limit, g, id, listed, a, b)
    ensures Within(limit, n, h, id, b.called, t + One(b.holds), s + One(b.lists))
  {
  }

  predicate WithinFor(limit: nat, n: nat, g: Group, workers: map<Consumer, Worker>, id: StreamId, called: nat)
    requires n >= 1
  {
    Within(limit, n, g, id, called, |Holders(workers, id)|, |Listers(workers, id, limit)|)
  }

  predicate Bounded(st: Settings, s: Sys, n: nat, id: StreamId)
    requires n >= 1
  {
    var limit := st.rules.maxDeliveries;
    && GroupOk(s.g) && (forall c :: c in s.workers ==> Neat(s.workers[c]))
    && WithinFor(limit, n, s.g, s.workers, id, CallsOf(s.calls, id))
  }

  lemma SizeWithout<T>(all: set<T>, x: T)
    ensures |all| == |all - {x}| + One(x in all)
  {
  }

  lemma SizeOfPart<T>(part: set<T>, all: set<T>)
    requires part <= all
    ensures |part| <= |all|
  {
    assert all == part + (all - part);
  }

  /** Replacing one worker changes the counts by its own share. */
  lemma HoldersAround(workers: map<Consumer, Worker>, c: Consumer, v: Worker, id: StreamId)
    requires c in workers
    ensures var t := |Holders(workers, id) - {c}|;
            && |Holders(workers, id)| == t + One(Holds(workers[c], id))
            && |Holders(workers[c := v], id)| == t + One(Holds(v, id))
  {
    SizeWithout(Holders(workers, id), c);
    SizeWithout(Holders(workers[c := v], id), c);
    assert Holders(workers[c := v], id) - {c} == Holders(workers, id) - {c};
  }

  lemma OthersAreFewer(workers: map<Consumer, Worker>, part: set<Consumer>, c: Consumer)
    requires part <= workers.Keys && c in workers
    ensures |part - {c}| < |workers|
  {
    SizeOfPart(part - {c}, workers.Keys - {c});
    SizeWithout(workers.Keys, c);
  }

  lemma ListersAround(workers: map<Consumer, Worker>, c: Consumer, v: Worker, id: StreamId, limit: nat)
    requires c in workers
    ensures var s := |Listers(workers, id, limit) - {c}|;
            && |Listers(workers, id, limit)| == s + One(HoldsListing(workers[c], id, limit))
            && |Listers(workers[c := v], id, limit)| == s + One(HoldsListing(v, id, limit))
            && s < |workers|
  {
    SizeWithout(Listers(workers, id, limit), c);
    SizeWithout(Listers(workers[c := v], id, limit), c);
    assert Listers(workers[c := v], id, limit) - {c} == Listers(workers, id, limit) - {c};
    OthersAreFewer(workers, Listers(workers, id, limit), c);
  }

  lemma CallsGrow(calls: seq<StreamId>, x: StreamId, id: StreamId)
    ensures CallsOf(calls + [x], id) == CallsOf(calls, id) + One(x == id)
  {
    assert (calls + [x])[..|calls|] == calls;
  }

  lemma AccountedMoves(st: Settings, c: Consumer, g: Group, now: Instant, w: Worker, outcome: Outcome, stop: bool,
                       id: StreamId, called: nat, h: Group, v: Worker, after: nat)
    requires IsAccounted(st, c, g, now, w, outcome, stop, id, called)
    requires WorkerStep(st, c, g, now, w, outcome, stop) == (h, v)
    requires after == if w.Calling? && w.entry.id == id then called + 1 else called
    ensures Neat(v)
    ensures var limit := st.rules.maxDeliveries;
            var a, b := ShareOf(g, w, id, limit, called), ShareOf(h, v, id, limit, after);
            && Moves(limit, g, id, Listed(w), a, b)
            && (Claims(limit, Listed(w), a, b) ==> w.Reclaiming? && w.stale != [] && w.stale[0].id == id)
  {
  }

  /** The step of a worker as seen from one entry. */
  ghost predicate StepIsAMove(st: Settings, s: Sys, id: StreamId, c: Consumer, h: Group, v: Worker,
                              calls: seq<StreamId>)
    requires c in s.workers
  {
    var limit := st.rules.maxDeliveries;
    var w := s.workers[c];
    var a, b := ShareOf(s.g, w, id, limit, CallsOf(s.calls, id)), ShareOf(h, v, id, limit, CallsOf(calls, id));
    && Neat(v) && GroupOk(h) && s.g.lastDelivered <= h.lastDelivered && Moves(limit, s.g, id, Listed(w), a, b)
    && (Claims(limit, Listed(w), a, b) ==> w.Reclaiming? && w.stale != [] && w.stale[0].id == id)
  }

  /** What the step is for one entry, whatever the position was. */
  lemma StepMoves(st: Settings, s: Sys, id: StreamId, c: Consumer, outcome: Outcome, stop: bool, h: Group, v: Worker,
                  calls: seq<StreamId>)
    requires GroupOk(s.g) && c in s.workers && Neat(s.workers[c])
    requires WorkerStep(st, c, s.g, s.now, s.workers[c], outcome, stop) == (h, v)
    requires calls == if s.workers[c].Calling? then s.calls + [s.workers[c].entry.id] else s.calls
    ensures StepIsAMove(st, s, id, c, h, v, calls)
  {
    var w := s.workers[c];
    var called := CallsOf(s.calls, id);
    if w.Calling? {
      CallsGrow(s.calls, w.entry.id, id);
    }
    StepIsAccounted(st, c, s.g, s.now, w, outcome, stop, id, called);
    CommandLater(st, s, c, w, outcome, stop);
    AccountedMoves(st, c, s.g, s.now, w, outcome, stop, id, called, h, v, CallsOf(calls, id));
  }

  /** One worker moved on, and the group and the calls with it. */
  lemma MovedStaysWithin(limit: nat, n: nat, g: Group, h: Group, workers: map<Consumer, Worker>, c: Consumer, v: Worker,
                         id: StreamId, called: nat, after: nat, listed: nat)
    requires n >= 1 && limit >= 1 && WithinFor(limit, n, g, workers, id, called) && |workers| <= n && c in workers
    requires GroupOk(g) && GroupOk(h) && g.lastDelivered <= h.lastDelivered
    requires Moves(limit, g, id, listed, ShareOf(g, workers[c], id, limit, called), ShareOf(h, v, id, limit, after))
    ensures WithinFor(limit, n, h, workers[c := v], id, after)
  {
    HoldersAround(workers, c, v, id);
    ListersAround(workers, c, v, id, limit);
    MovesStayWithin(limit, n, g, h, id, listed,
      ShareOf(g, workers[c], id, limit, called), ShareOf(h, v, id, limit, after),
      |Holders(workers, id) - {c}|, |Listers(workers, id, limit) - {c}|);
  }

  lemma StepStaysBounded(st: Settings, s: Sys, n: nat, id: StreamId, c: Consumer, outcome: Outcome, stop: bool)
    requires n >= 1 && st.rules.maxDeliveries >= 1 && Bounded(st, s, n, id) && |s.workers| <= n && c in s.workers
    ensures Bounded(st, Stepped(st, s, c, outcome, stop, false), n, id)
  {
    var w := s.workers[c];
    var (h, v) := WorkerStep(st, c, s.g, s.now, w, outcome, stop);
    var calls := if w.Calling? then s.calls + [w.entry.id] else s.calls;
    StepMoves(st, s, id, c, outcome, stop, h, v, calls);
    MovedStaysWithin(st.rules.maxDeliveries, n, s.g, h, s.workers, c, v, id, CallsOf(s.calls, id), CallsOf(calls, id),
      Listed(w));
  }

  /** A worker that starts, fails or disappears holds nothing. */
  lemma ForgettingStaysBounded(st: Settings, s: Sys, t: Sys, n: nat, id: StreamId)
    requires n >= 1 && Bounded(st, s, n, id) && t.g.pending == s.g.pending && t.g.lastDelivered == s.g.lastDelivered
    requires GroupOk(t.g) && t.calls == s.calls
    requires forall c :: c in t.workers ==>
               (c in s.workers && t.workers[c] == s.workers[c]) || t.workers[c].Reading? || t.workers[c].Stopped?
    ensures Bounded(st, t, n, id)
  {
    var limit := st.rules.maxDeliveries;
    SizeOfPart(Holders(t.workers, id), Holders(s.workers, id));
    SizeOfPart(Listers(t.workers, id, limit), Listers(s.workers, id, limit));
  }

  lemma QuietActionStaysBounded(st: Settings, s: Sys, n: nat, id: StreamId, a: Action)
    requires n >= 1 && Bounded(st, s, n, id) && !(a.Step? && a.consumer in s.workers)
    ensures Bounded(st, Apply(st, s, a), n, id)
  {
    ForgettingStaysBounded(st, s, Apply(st, s, a), n, id);
  }

  lemma ActionStaysBounded(st: Settings, s: Sys, n: nat, id: StreamId, a: Action)
    requires n >= 1 && st.rules.maxDeliveries >= 1 && Bounded(st, s, n, id) && |s.workers| <= n
    ensures Bounded(st, Apply(st, s, a), n, id)
  {
    if a.Step? && a.consumer in s.workers {
      var t := Stepped(st, s, a.consumer, a.outcome, a.stop, false);
      StepStaysBounded(st, s, n, id, a.consumer, a.outcome, a.stop);
      ForgettingStaysBounded(st, t, Apply(st, s, a), n, id);
    } else {
      QuietActionStaysBounded(st, s, n, id, a);
    }
  }

  /** Never more than n workers at a time. */
  predicate AtMostWorkers(st: Settings, s: Sys, actions: seq<Action>, n: nat)
    decreases |actions|
  {
    |s.workers| <= n && (actions != [] ==> AtMostWorkers(st, Apply(st, s, actions[0]), actions[1..], n))
  }

  lemma {:induction false} RunStaysBounded(st: Settings, s: Sys, actions: seq<Action>, n: nat, id: StreamId)
    requires n >= 1 && st.rules.maxDeliveries >= 1 && Bounded(st, s, n, id) && AtMostWorkers(st, s, actions, n)
    ensures Bounded(st, Exec(st, s, actions), n, id)
    decreases |actions|
  {
    if actions != [] {
      ActionStaysBounded(st, s, n, id, actions[0]);
      RunStaysBounded(st, Apply(st, s, actions[0]), actions[1..], n, id);
    }
  }

  /**
   * With at most n workers at a time, whatever crashes and failures: an entry's handler is called at most
   * maxDeliveries + n - 1 times, and at most once when maxDeliveries is one.
   */
  lemma HandlerCallsAreBounded(st: Settings, s: Sys, actions: seq<Action>, n: nat, id: StreamId)
    requires Init(s) && st.rules.maxDeliveries >= 1 && n >= 1 && AtMostWorkers(st, s, actions, n)
    ensures CallsOf(Exec(st, s, actions).calls, id) <= MostCalls(st.rules.maxDeliveries, n)
  {
    assert Holders(s.workers, id) == {} && Listers(s.workers, id, st.rules.maxDeliveries) == {};
    RunStaysBounded(st, s, actions, n, id);
    var t := Exec(st, s, actions);
    assert Within(st.rules.maxDeliveries, n, t.g, id, CallsOf(t.calls, id), |Holders(t.workers, id)|,
                  |Listers(t.workers, id, st.rules.maxDeliveries)|);
  }

  // ---------- when listings are not out of date ----------

  /** The claimed entry still has the delivery count its listing showed. */
  predicate ClaimIsCurrent(s: Sys, a: Action) {
    a.Step? && a.consumer in s.workers && s.workers[a.consumer].Reclaiming? && s.workers[a.consumer].stale != [] ==>
      var listed := s.workers[a.consumer].stale[0];
      listed.id in s.g.pending ==> s.g.pending[listed.id].deliveries == listed.deliveries
  }

  predicate ClaimsAreCurrent(st: Settings, s: Sys, actions: seq<Action>)
    decreases |actions|
  {
    actions != [] ==> ClaimIsCurrent(s, actions[0]) && ClaimsAreCurrent(st, Apply(st, s, actions[0]), actions[1..])
  }

  /** Every call answers its own delivery, up to the limit. */
  predicate OneCallPerDelivery(limit: nat, g: Group, id: StreamId, called: nat, holders: nat) {
    match PendingCount(g, id)
    case Some(d) => called + holders <= Min(d, limit)
    case None => if id > g.lastDelivered then called == 0 && holders == 0 else called + holders <= limit
  }

  predicate Exact(st: Settings, s: Sys, id: StreamId) {
    && GroupOk(s.g) && (forall c :: c in s.workers ==> Neat(s.workers[c]))
    && OneCallPerDelivery(st.rules.maxDeliveries, s.g, id, CallsOf(s.calls, id), |Holders(s.workers, id)|)
  }

  lemma MovesStayExact(limit: nat, g: Group, h: Group, id: StreamId, listed: nat, a: Share, b: Share, t: nat)
    requires limit >= 1 && GroupOk(g) && GroupOk(h) && g.lastDelivered <= h.lastDelivered
    requires a.pending == PendingCount(g, id) && b.pending == PendingCount(h, id)
    requires OneCallPerDelivery(limit, g, id, a.called, t + One(a.holds))
    requires Moves(limit, g, id, listed, a, b) && (Claims(limit, listed, a, b) ==> a.pending.value == listed)
    ensures OneCallPerDelivery(limit, h, id, b.called, t + One(b.holds))
  {
  }

  lemma MovedStaysExact(limit: nat, g: Group, h: Group, workers: map<Consumer, Worker>, c: Consumer, v: Worker,
                        id: StreamId, called: nat, after: nat, listed: nat)
    requires limit >= 1 && c in workers && OneCallPerDelivery(limit, g, id, called, |Holders(workers, id)|)
    requires GroupOk(g) && GroupOk(h) && g.lastDelivered <= h.lastDelivered
    requires var a, b := ShareOf(g, workers[c], id, limit, called), ShareOf(h, v, id, limit, after);
             Moves(limit, g, id, listed, a, b) && (Claims(limit, listed, a, b) ==> a.pending.value == listed)
    ensures OneCallPerDelivery(limit, h, id, after, |Holders(workers[c := v], id)|)
  {
    HoldersAround(workers, c, v, id);
    MovesStayExact(limit, g, h, id, listed, ShareOf(g, workers[c], id, limit, called), ShareOf(h, v, id, limit, after),
      |Holders(workers, id) - {c}|);
  }

  lemma StepStaysExact(st: Settings, s: Sys, id: StreamId, c: Consumer, outcome: Outcome, stop: bool)
    requires st.rules.maxDeliveries >= 1 && Exact(st, s, id) && c in s.workers
    requires ClaimIsCurrent(s, Step(c, outcome, stop, false))
    ensures Exact(st, Stepped(st, s, c, outcome, stop, false), id)
  {
    var w := s.workers[c];
    var (h, v) := WorkerStep(st, c, s.g, s.now, w, outcome, stop);
    var calls := if w.Calling? then s.calls + [w.entry.id] else s.calls;
    StepMoves(st, s, id, c, outcome, stop, h, v, calls);
    MovedStaysExact(st.rules.maxDeliveries, s.g, h, s.workers, c, v, id, CallsOf(s.calls, id), CallsOf(calls, id),
      Listed(w));
  }

  lemma ForgettingStaysExact(st: Settings, s: Sys, t: Sys, id: StreamId)
    requires Exact(st, s, id) && t.g.pending == s.g.pending && t.g.lastDelivered == s.g.lastDelivered
    requires GroupOk(t.g) && t.calls == s.calls
    requires forall c :: c in t.workers ==>
               (c in s.workers && t.workers[c] == s.workers[c]) || t.workers[c].Reading? || t.workers[c].Stopped?
    ensures Exact(st, t, id)
  {
    SizeOfPart(Holders(t.workers, id), Holders(s.workers, id));
  }

  lemma QuietActionStaysExact(st: Settings, s: Sys, id: StreamId, a: Action)
    requires Exact(st, s, id) && !(a.Step? && a.consumer in s.workers)
    ensures Exact(st, Apply(st, s, a), id)
  {
    ForgettingStaysExact(st, s, Apply(st, s, a), id);
  }

  lemma ActionStaysExact(st: Settings, s: Sys, id: StreamId, a: Action)
    requires st.rules.maxDeliveries >= 1 && Exact(st, s, id) && ClaimIsCurrent(s, a)
    ensures Exact(st, Apply(st, s, a), id)
  {
    if a.Step? && a.consumer in s.workers {
      var t := Stepped(st, s, a.consumer, a.outcome, a.stop, false);
      StepStaysExact(st, s, id, a.consumer, a.outcome, a.stop);
      ForgettingStaysExact(st, t, Apply(st, s, a), id);
    } else {
      QuietActionStaysExact(st, s, id, a);
    }
  }

  lemma {:induction false} RunStaysExact(st: Settings, s: Sys, actions: seq<Action>, id: StreamId)
    requires st.rules.maxDeliveries >= 1 && Exact(st, s, id) && ClaimsAreCurrent(st, s, actions)
    ensures Exact(st, Exec(st, s, actions), id)
    decreases |actions|
  {
    if actions != [] {
      ActionStaysExact(st, s, id, actions[0]);
      RunStaysExact(st, Apply(st, s, actions[0]), actions[1..], id);
    }
  }

  /**
   * While every claim finds the delivery count it was listed with, any number of workers keep to maxDeliveries calls.
   */
  lemma CurrentClaimsKeepTheLimit(st: Settings, s: Sys, actions: seq<Action>, id: StreamId)
    requires Init(s) && st.rules.maxDeliveries >= 1 && ClaimsAreCurrent(st, s, actions)
    ensures CallsOf(Exec(st, s, actions).calls, id) <= st.rules.maxDeliveries
  {
    assert Holders(s.workers, id) == {};
    RunStaysExact(st, s, actions, id);
  }
}
