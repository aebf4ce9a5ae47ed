/**
 * A consumer group as a system: several workers share the stream; every Redis command and every handler call is
 * one step, commands may fail with or without effect, and workers may crash between any two steps.
 */
module GroupProtocol {
  import opened Common
  import opened StreamFields
  import opened DeadLetters
  import opened Dispatch
  import opened StreamGroup

  /** Where a worker goes on after an entry. */
  datatype Next = InReclaim(stale: seq<PendingEntry>) | InBatch(entries: seq<Entry>, skipped: seq<StreamId>)

  datatype Worker =
    | Reading
    | Reclaiming(stale: seq<PendingEntry>)
    | ReadingNew
    | Batch(entries: seq<Entry>, skipped: seq<StreamId>)
    | Calling(entry: Entry, attempt: nat, next: Next)
    | Handling(entry: Entry, attempt: nat, next: Next)
    | Acking(id: StreamId, next: Next)
    | DeadAdding(entry: Entry, death: DeadSettlement, next: Next)
    | DeadAcking(id: StreamId, next: Next)
    | BatchAcking(skipped: seq<StreamId>)
    | ReleaseCheck
    | ReleaseDelete
    | Stopped

  function Resume(next: Next): Worker {
    match next
    case InReclaim(stale) => Reclaiming(stale)
    case InBatch(entries, skipped) => Batch(entries, skipped)
  }

  /** Applying a settlement; skipped entries of a batch are acknowledged together at its end. */
  function AfterSettlement(entry: Entry, settlement: Settlement, next: Next): Worker {
    match settlement
    case Done => Acking(entry.id, next)
    case Skipped => if next.InReclaim? then Acking(entry.id, next) else Batch(next.entries, next.skipped + [entry.id])
    case Retry(_) => Resume(next)
    case Dead(_, _, _) => DeadAdding(entry, settlement, next)
  }

  function AfterExamination(rules: Rules, entry: Entry, attempt: nat, next: Next): Worker {
    match Examine(rules, entry, attempt)
    case GiveToHandler(_) => Calling(entry, attempt, next)
    case Settled(settlement) => AfterSettlement(entry, settlement, next)
  }

  /** One step of a worker. `outcome` is the handler's answer, `stop` whether shutdown was asked for. */
  function WorkerStep(
    st: Settings, consumer: Consumer, g: Group, now: Instant, w: Worker, outcome: Outcome, stop: bool): (Group, Worker)
  {
    match w
    case Reading =>
      if stop then (g, ReleaseCheck) else (g, Reclaiming(StalePending(g, now, st.claimIdleMs, st.batchSize)))
    case Reclaiming(stale) =>
      if stop then (g, ReleaseCheck)
      else if stale == [] then (g, ReadingNew)
      else
        var (claimedGroup, claimed) := Claim(g, now, consumer, stale[0].id, st.claimIdleMs);
        (claimedGroup,
         if claimed.None? then Reclaiming(stale[1..])
         else AfterExamination(st.rules, claimed.value, stale[0].deliveries + 1, InReclaim(stale[1..])))
    case ReadingNew =>
      var (readGroup, entries) := ReadNew(g, now, consumer, st.batchSize);
      (readGroup, Batch(entries, []))
    case Batch(entries, skipped) =>
      if entries != [] then (g, AfterExamination(st.rules, entries[0], 1, InBatch(entries[1..], skipped)))
      else if skipped == [] then (g, Reading)
      else (g, BatchAcking(skipped))
    case Calling(entry, attempt, next) => (g, Handling(entry, attempt, next))
    case Handling(entry, attempt, next) => (g, AfterSettlement(entry, Conclude(st.rules, attempt, outcome), next))
    case Acking(id, next) => (Ack(g, [id]), Resume(next))
    case DeadAdding(entry, death, next) =>
      (AddDead(g, DeadLetterFields(entry.fields, LetterOf(st, consumer, entry.id, death, now))),
        DeadAcking(entry.id, next))
    case DeadAcking(id, next) => (Ack(g, [id]), Resume(next))
    case BatchAcking(skipped) => (Ack(g, skipped), Reading)
    case ReleaseCheck => (g, if HasPending(g, consumer) then Stopped else ReleaseDelete)
    case ReleaseDelete => (DeleteConsumer(g, consumer), Stopped)
    case Stopped => (g, Stopped)
  }

  /** A failed round is logged and the loop goes on; a failed release ends the worker. */
  function Recovered(w: Worker): Worker {
    if w.ReleaseCheck? || w.ReleaseDelete? || w.Stopped? then Stopped else Reading
  }

  /**
   * The group, the clock and the live workers by their consumer names, with three histories: where the group
   * started, the entries whose handler answered `handled`, and every handler call.
   */
  datatype Sys = Sys(
    g: Group,
    now: Instant,
    workers: map<Consumer, Worker>,
    start: StreamId,
    handled: set<StreamId>,
    calls: seq<StreamId>)

  datatype Action =
    | Publish(fields: Fields)
    | TrimOld(ids: set<StreamId>)
    | Wait(ms: nat)
    | Start(consumer: Consumer)
    | Step(consumer: Consumer, outcome: Outcome, stop: bool, replyLost: bool)
    | Fail(consumer: Consumer)
    | Crash(consumer: Consumer)

  function Stepped(st: Settings, s: Sys, c: Consumer, outcome: Outcome, stop: bool, replyLost: bool): Sys
    requires c in s.workers
  {
    var w := s.workers[c];
    var (g, next) := WorkerStep(st, c, s.g, s.now, w, outcome, stop);
    s.(g := g,
       workers := s.workers[c := if replyLost then Recovered(w) else next],
       handled := if w.Handling? && outcome.Handled? then s.handled + {w.entry.id} else s.handled,
       calls := if w.Calling? then s.calls + [w.entry.id] else s.calls)
  }

  function Apply(st: Settings, s: Sys, a: Action): Sys {
    match a
    case Publish(fields) => s.(g := Xadd(s.g, fields))
    case TrimOld(ids) => s.(g := Trim(s.g, ids))
    case Wait(ms) => s.(now := s.now + ms)
    case Start(c) => if c in s.workers then s else s.(workers := s.workers[c := Reading])
    case Step(c, outcome, stop, replyLost) =>
      if c in s.workers then Stepped(st, s, c, outcome, stop, replyLost) else s
    case Fail(c) => if c in s.workers then s.(workers := s.workers[c := Recovered(s.workers[c])]) else s
    case Crash(c) => s.(workers := s.workers - {c})
  }

  function Exec(st: Settings, s: Sys, actions: seq<Action>): Sys
    decreases |actions|
  {
    if actions == [] then s else Exec(st, Apply(st, s, actions[0]), actions[1..])
  }

  lemma {:induction false} ExecSplits(st: Settings, s: Sys, a: seq<Action>, b: seq<Action>)
    ensures Exec(st, s, a + b) == Exec(st, Exec(st, s, a), b)
    decreases |a|
  {
    if a == [] {
      assert a + b == b;
    } else {
      assert (a + b)[1..] == a[1..] + b;
      ExecSplits(st, Apply(st, s, a[0]), a[1..], b);
    }
  }

  predicate Init(s: Sys) {
    && GroupOk(s.g) && s.g.lastDelivered == s.start && s.g.pending == map[] && s.g.dead == []
    && s.workers == map[] && s.handled == {} && s.calls == []
  }

  // ---------- nothing is lost ----------

  /** The dead-letter stream holds this entry's fields under its id. */
  predicate IsCopyOf(st: Settings, letter: Fields, id: StreamId, fields: Fields) {
    && ValueOf(letter, SOURCE_ID) == Some(Decimal(id)) && ValueOf(letter, GROUP) == Some(st.group)
    && Kept(letter) == Kept(fields)
  }

  predicate HasCopy(st: Settings, dead: seq<Fields>, id: StreamId, fields: Fields) {
    exists i :: 0 <= i < |dead| && IsCopyOf(st, dead[i], id, fields)
  }

  /** The entry needs nothing more: handled, not listened to, or dead-lettered. */
  predicate IsSettled(st: Settings, s: Sys, id: StreamId, fields: Fields) {
    id in s.handled || Unlistened(st.rules, fields) || HasCopy(st, s.g.dead, id, fields)
  }

  /** Every entry the group was given and the stream still holds is pending or settled. */
  predicate NothingLost(st: Settings, s: Sys) {
    forall id :: id in s.g.entries && s.start < id <= s.g.lastDelivered ==>
      id in s.g.pending || IsSettled(st, s, id, s.g.entries[id])
  }

  /** Acknowledging the entry loses nothing. */
  predicate MayAck(st: Settings, s: Sys, id: StreamId) {
    id <= s.g.lastDelivered && (id in s.g.entries ==> IsSettled(st, s, id, s.g.entries[id]))
  }

  /** The worker holds what the stream holds. */
  predicate EntryOk(s: Sys, e: Entry) {
    && e.fields.Some? && e.id <= s.g.lastDelivered
    && (e.id in s.g.entries ==> e.fields.value == s.g.entries[e.id])
  }

  predicate NextOk(st: Settings, s: Sys, next: Next) {
    next.InBatch? ==>
      && (forall i :: 0 <= i < |next.entries| ==> EntryOk(s, next.entries[i]))
      && (forall i :: 0 <= i < |next.skipped| ==> MayAck(st, s, next.skipped[i]))
  }

  predicate WorkerOk(st: Settings, s: Sys, c: Consumer, w: Worker) {
    match w
    case Batch(entries, skipped) => NextOk(st, s, InBatch(entries, skipped))
    case Calling(entry, _, next) => EntryOk(s, entry) && NextOk(st, s, next)
    case Handling(entry, _, next) => EntryOk(s, entry) && NextOk(st, s, next)
    case Acking(id, next) => MayAck(st, s, id) && NextOk(st, s, next)
    case DeadAdding(entry, _, next) => EntryOk(s, entry) && NextOk(st, s, next)
    case DeadAcking(id, next) => MayAck(st, s, id) && NextOk(st, s, next)
    case BatchAcking(skipped) => NextOk(st, s, InBatch([], skipped))
    case ReleaseDelete => !HasPending(s.g, c)
    case _ => true
  }

  predicate Inv(st: Settings, s: Sys) {
    && GroupOk(s.g)
    && NothingLost(st, s)
    && forall c :: c in s.workers ==> WorkerOk(st, s, c, s.workers[c])
  }

  /** What time does to the facts workers rely on: known entries stay as they are or go, the rest only grows. */
  predicate Later(s: Sys, t: Sys) {
    && s.g.lastDelivered <= t.g.lastDelivered && s.start == t.start
    && s.handled <= t.handled && s.g.dead <= t.g.dead
    && forall id :: id in t.g.entries && id <= s.g.lastId ==> id in s.g.entries && t.g.entries[id] == s.g.entries[id]
  }

  lemma SettledStays(st: Settings, s: Sys, t: Sys, id: StreamId, fields: Fields)
    requires Later(s, t) && IsSettled(st, s, id, fields)
    ensures IsSettled(st, t, id, fields)
  {
    if HasCopy(st, s.g.dead, id, fields) {
      var i :| 0 <= i < |s.g.dead| && IsCopyOf(st, s.g.dead[i], id, fields);
      assert t.g.dead[i] == s.g.dead[i];
    }
  }

  lemma MayAckStays(st: Settings, s: Sys, t: Sys, id: StreamId)
    requires GroupOk(s.g) && Later(s, t) && MayAck(st, s, id)
    ensures MayAck(st, t, id)
  {
    if id in t.g.entries {
      SettledStays(st, s, t, id, s.g.entries[id]);
    }
  }

  lemma WorkerStays(st: Settings, s: Sys, t: Sys, c: Consumer, w: Worker)
    requires GroupOk(s.g) && Later(s, t) && WorkerOk(st, s, c, w)
    requires w.ReleaseDelete? ==> !HasPending(t.g, c)
    ensures WorkerOk(st, t, c, w)
  {
    if w.Acking? || w.DeadAcking? {
      MayAckStays(st, s, t, w.id);
    }
    var next := match w
      case Batch(entries, skipped) => InBatch(entries, skipped)
      case Calling(_, _, next) => next
      case Handling(_, _, next) => next
      case Acking(_, next) => next
      case DeadAdding(_, _, next) => next
      case DeadAcking(_, next) => next
      case BatchAcking(skipped) => InBatch([], skipped)
      case _ => InBatch([], []);
    if next.InBatch? {
      forall i | 0 <= i < |next.skipped|
        ensures MayAck(st, t, next.skipped[i])
      {
        MayAckStays(st, s, t, next.skipped[i]);
      }
    }
  }

  /** What a command does to the group, seen from a waiting worker. */
  predicate GroupLater(g: Group, h: Group) {
    && GroupOk(h) && g.lastDelivered <= h.lastDelivered && g.dead <= h.dead
    && h.entries == g.entries && h.lastId == g.lastId
  }

  lemma ReadLater(g: Group, now: Instant, c: Consumer, count: nat)
    requires GroupOk(g)
    ensures GroupLater(g, ReadNew(g, now, c, count).0)
  {
    NewFromMeaning(g, g.lastDelivered + 1, count);
    var page := NewFrom(g, g.lastDelivered + 1, count);
    if page != [] {
      assert g.lastDelivered + 1 <= page[|page| - 1].id <= g.lastId;
      assert forall i :: 0 <= i < |page| - 1 ==> page[i].id < page[|page| - 1].id;
    }
  }

  lemma CommandLater(st: Settings, s: Sys, c: Consumer, w: Worker, outcome: Outcome, stop: bool)
    requires GroupOk(s.g)
    ensures GroupLater(s.g, WorkerStep(st, c, s.g, s.now, w, outcome, stop).0)
  {
    if w.ReadingNew? {
      ReadLater(s.g, s.now, c, st.batchSize);
    }
  }

  lemma StepLater(st: Settings, s: Sys, a: Action)
    requires GroupOk(s.g)
    ensures Later(s, Apply(st, s, a)) && GroupOk(Apply(st, s, a).g)
  {
    if a.Step? && a.consumer in s.workers {
      CommandLater(st, s, a.consumer, s.workers[a.consumer], a.outcome, a.stop);
    }
  }

  /** Only the worker itself hands entries to its consumer name. */
  lemma OthersGetNothing(st: Settings, s: Sys, c: Consumer, w: Worker, outcome: Outcome, stop: bool, other: Consumer)
    requires c != other && !HasPending(s.g, other)
    ensures !HasPending(WorkerStep(st, c, s.g, s.now, w, outcome, stop).0, other)
  {
  }

  lemma AfterSettlementOk(st: Settings, t: Sys, c: Consumer, entry: Entry, settlement: Settlement, next: Next)
    requires EntryOk(t, entry) && NextOk(st, t, next)
    requires settlement.Done? ==> MayAck(st, t, entry.id)
    requires settlement.Skipped? ==> Unlistened(st.rules, entry.fields.value)
    ensures WorkerOk(st, t, c, AfterSettlement(entry, settlement, next))
  {
  }

  lemma AfterExaminationOk(st: Settings, t: Sys, c: Consumer, entry: Entry, attempt: nat, next: Next)
    requires EntryOk(t, entry) && NextOk(st, t, next)
    ensures WorkerOk(st, t, c, AfterExamination(st.rules, entry, attempt, next))
  {
    match Examine(st.rules, entry, attempt)
    case GiveToHandler(_) =>
    case Settled(settlement) =>
      SkippedExactlyWhenUnlistened(st.rules, entry, attempt, Handled);
      AfterSettlementOk(st, t, c, entry, settlement, next);
  }

  lemma ClaimStepOk(st: Settings, s: Sys, t: Sys, c: Consumer, stale: seq<PendingEntry>)
    requires GroupOk(s.g) && Later(s, t) && t.g.entries == s.g.entries && stale != []
    ensures var claimed := Claim(s.g, s.now, c, stale[0].id, st.claimIdleMs).1;
            claimed.Some? ==>
              WorkerOk(st, t, c, AfterExamination(st.rules, claimed.value, stale[0].deliveries + 1,
                InReclaim(stale[1..])))
  {
    var claimed := Claim(s.g, s.now, c, stale[0].id, st.claimIdleMs).1;
    if claimed.Some? {
      AfterExaminationOk(st, t, c, claimed.value, stale[0].deliveries + 1, InReclaim(stale[1..]));
    }
  }

  lemma ReadStepOk(st: Settings, s: Sys, t: Sys, c: Consumer)
    requires GroupOk(s.g) && t.g == ReadNew(s.g, s.now, c, st.batchSize).0
    ensures WorkerOk(st, t, c, Batch(ReadNew(s.g, s.now, c, st.batchSize).1, []))
  {
    NewFromMeaning(s.g, s.g.lastDelivered + 1, st.batchSize);
    var page := NewFrom(s.g, s.g.lastDelivered + 1, st.batchSize);
    assert forall i :: 0 <= i < |page| - 1 ==> page[i].id < page[|page| - 1].id;
    assert NextOk(st, t, InBatch(page, []));
  }

  lemma BatchStepOk(st: Settings, t: Sys, c: Consumer, entries: seq<Entry>, skipped: seq<StreamId>)
    requires entries != [] && WorkerOk(st, t, c, Batch(entries, skipped))
    ensures WorkerOk(st, t, c, AfterExamination(st.rules, entries[0], 1, InBatch(entries[1..], skipped)))
  {
    assert EntryOk(t, entries[0]);
    AfterExaminationOk(st, t, c, entries[0], 1, InBatch(entries[1..], skipped));
  }

  /** The worker's own next position is sound after its step. */
  lemma OwnStepOk(st: Settings, s: Sys, c: Consumer, outcome: Outcome, stop: bool)
    requires Inv(st, s) && c in s.workers
    ensures var t := Stepped(st, s, c, outcome, stop, false);
            WorkerOk(st, t, c, t.workers[c])
  {
    var w := s.workers[c];
    var t := Stepped(st, s, c, outcome, stop, false);
    StepLater(st, s, Step(c, outcome, stop, false));
    if w.Reclaiming? || w.ReadingNew? || w.ReleaseDelete? {
      FetchStepOk(st, s, t, c, outcome, stop);
    } else {
      WorkerStays(st, s, t, c, w);
      EntryStepOk(st, s, t, c, outcome, stop);
    }
  }

  /** Positions that take entries from the group. */
  lemma FetchStepOk(st: Settings, s: Sys, t: Sys, c: Consumer, outcome: Outcome, stop: bool)
    requires GroupOk(s.g) && Later(s, t) && c in s.workers && t == Stepped(st, s, c, outcome, stop, false)
    requires var w := s.workers[c]; w.Reclaiming? || w.ReadingNew? || w.ReleaseDelete?
    ensures WorkerOk(st, t, c, t.workers[c])
  {
    match s.workers[c]
    case Reclaiming(stale) =>
      if !stop && stale != [] {
        ClaimStepOk(st, s, t, c, stale);
      }
    case ReadingNew => ReadStepOk(st, s, t, c);
    case _ =>
  }

  /** Positions that already hold an entry. */
  lemma EntryStepOk(st: Settings, s: Sys, t: Sys, c: Consumer, outcome: Outcome, stop: bool)
    requires Inv(st, s) && c in s.workers && t == Stepped(st, s, c, outcome, stop, false)
    requires var w := s.workers[c]; !w.Reclaiming? && !w.ReadingNew? && !w.ReleaseDelete? && WorkerOk(st, t, c, w)
    ensures WorkerOk(st, t, c, t.workers[c])
  {
    match s.workers[c]
    case Batch(entries, skipped) =>
      if entries != [] {
        BatchStepOk(st, t, c, entries, skipped);
      }
    case Handling(entry, attempt, next) =>
      AfterSettlementOk(st, t, c, entry, Conclude(st.rules, attempt, outcome), next);
    case DeadAdding(entry, death, next) => CopyIsWritten(st, s, c, outcome, stop);
    case _ =>
  }

  /** The dead-letter write leaves a copy of the entry behind. */
  lemma CopyIsWritten(st: Settings, s: Sys, c: Consumer, outcome: Outcome, stop: bool)
    requires GroupOk(s.g) && c in s.workers && s.workers[c].DeadAdding? && EntryOk(s, s.workers[c].entry)
    ensures MayAck(st, Stepped(st, s, c, outcome, stop, false), s.workers[c].entry.id)
  {
    var entry := s.workers[c].entry;
    var letter := LetterOf(st, c, entry.id, s.workers[c].death, s.now);
    var t := Stepped(st, s, c, outcome, stop, false);
    MetadataReadsBack(entry.fields, letter);
    ReplayingRestoresTheOriginal(entry.fields.value, letter);
    assert t.g.dead[|s.g.dead|] == DeadLetterFields(entry.fields, letter);
    if entry.id in t.g.entries {
      assert IsCopyOf(st, t.g.dead[|s.g.dead|], entry.id, t.g.entries[entry.id]);
    }
  }

  /** What was delivered stays pending or settled through a worker's step. */
  lemma StepLosesNothing(st: Settings, s: Sys, c: Consumer, outcome: Outcome, stop: bool, replyLost: bool)
    requires Inv(st, s) && c in s.workers
    ensures NothingLost(st, Stepped(st, s, c, outcome, stop, replyLost))
  {
    var w := s.workers[c];
    var t := Stepped(st, s, c, outcome, stop, replyLost);
    StepLater(st, s, Step(c, outcome, stop, replyLost));
    forall id | id in t.g.entries && t.start < id <= t.g.lastDelivered
      ensures id in t.g.pending || IsSettled(st, t, id, t.g.entries[id])
    {
      if id > s.g.lastDelivered {
        assert w.ReadingNew?;
        NewFromPassesOverNothing(s.g, s.g.lastDelivered + 1, st.batchSize, id);
      } else if IsSettled(st, s, id, s.g.entries[id]) {
        SettledStays(st, s, t, id, s.g.entries[id]);
      } else {
        StillPending(st, s, c, outcome, stop, id);
      }
    }
  }

  lemma StillPending(st: Settings, s: Sys, c: Consumer, outcome: Outcome, stop: bool, id: StreamId)
    requires Inv(st, s) && c in s.workers
    requires id in s.g.pending && id in s.g.entries && !IsSettled(st, s, id, s.g.entries[id])
    ensures id in WorkerStep(st, c, s.g, s.now, s.workers[c], outcome, stop).0.pending
  {
    var w := s.workers[c];
    assert WorkerOk(st, s, c, w);
    if w.BatchAcking? {
      assert forall i :: 0 <= i < |w.skipped| ==> MayAck(st, s, w.skipped[i]);
    }
  }

  lemma StepKeepsInv(st: Settings, s: Sys, a: Action)
    requires Inv(st, s)
    ensures Inv(st, Apply(st, s, a))
  {
    var t := Apply(st, s, a);
    StepLater(st, s, a);
    if a.Step? && a.consumer in s.workers {
      StepLosesNothing(st, s, a.consumer, a.outcome, a.stop, a.replyLost);
    } else {
      forall id | id in t.g.entries && t.start < id <= t.g.lastDelivered
        ensures id in t.g.pending || IsSettled(st, t, id, t.g.entries[id])
      {
        assert id in s.g.entries;
      }
    }
    forall c | c in t.workers
      ensures WorkerOk(st, t, c, t.workers[c])
    {
      if a.Step? && a.consumer == c && c in s.workers {
        OwnStepOk(st, s, c, a.outcome, a.stop);
        assert Stepped(st, s, c, a.outcome, a.stop, a.replyLost).g == Stepped(st, s, c, a.outcome, a.stop, false).g;
      } else if c in s.workers && t.workers[c] == s.workers[c] {
        if a.Step? && a.consumer in s.workers && s.workers[c].ReleaseDelete? {
          OthersGetNothing(st, s, a.consumer, s.workers[a.consumer], a.outcome, a.stop, c);
        }
        WorkerStays(st, s, t, c, s.workers[c]);
      }
    }
  }

  lemma {:induction false} RunKeepsInv(st: Settings, s: Sys, actions: seq<Action>)
    requires Inv(st, s)
    ensures Inv(st, Exec(st, s, actions))
    decreases |actions|
  {
    if actions != [] {
      StepKeepsInv(st, s, actions[0]);
      RunKeepsInv(st, Apply(st, s, actions[0]), actions[1..]);
    }
  }

  /**
   * At-least-once: in every run, every entry the group was given and the stream still holds is pending, or its
   * handler answered `handled`, or the group does not listen to its topic, or its copy is in the dead letters.
   */
  lemma NothingIsLost(st: Settings, s: Sys, actions: seq<Action>, id: StreamId)
    requires Init(s)
    ensures var t := Exec(st, s, actions);
            id in t.g.entries && s.start < id <= t.g.lastDelivered ==>
              || id in t.g.pending || id in t.handled || Unlistened(st.rules, t.g.entries[id])
              || HasCopy(st, t.g.dead, id, t.g.entries[id])
  {
    RunKeepsInv(st, s, actions);
    StartStays(st, s, actions);
  }

  lemma {:induction false} StartStays(st: Settings, s: Sys, actions: seq<Action>)
    ensures Exec(st, s, actions).start == s.start
    decreases |actions|
  {
    if actions != [] {
      StartStays(st, Apply(st, s, actions[0]), actions[1..]);
    }
  }
}
