/**
 * The bound on handler calls is exact: for every limit and every number of workers a run reaches it. So the limit
 * itself holds in all runs exactly for a single worker or a limit of one.
 */
module HandlerCallsExact {
  import opened Common
  import opened StreamFields
  import opened DeadLetters
  import opened Dispatch
  import opened StreamGroup
  import opened GroupProtocol
  import opened HandlerCalls

  // ---------- names for any number of workers ----------

  function Name(i: nat): Consumer {
    Decimal(i)
  }

  lemma NamesDiffer(i: nat, j: nat)
    requires i != j
    ensures Name(i) != Name(j)
  {
    DecimalReadsBack(i);
    DecimalReadsBack(j);
  }

  function Names(n: nat): set<Consumer> {
    set i | 0 <= i < n :: Name(i)
  }

  lemma OneMoreName(n: nat)
    ensures Names(n + 1) == Names(n) + {Name(n)} && Name(n) !in Names(n)
  {
    forall i | 0 <= i < n
      ensures Name(i) != Name(n)
    {
      NamesDiffer(i, n);
    }
    forall x | x in Names(n + 1)
      ensures x in Names(n) + {Name(n)}
    {
      var i :| 0 <= i < n + 1 && Name(i) == x;
      assert i < n ==> Name(i) in Names(n);
    }
    forall x | x in Names(n) + {Name(n)}
      ensures x in Names(n + 1)
    {
      if x in Names(n) {
        var i :| 0 <= i < n && Name(i) == x;
        assert Name(i) in Names(n + 1);
      } else {
        assert Name(n) in Names(n + 1);
      }
    }
  }

  lemma {:induction false} NamesAreFew(n: nat)
    ensures |Names(n)| == n
    decreases n
  {
    if n == 0 {
      assert Names(0) == {};
    } else {
      NamesAreFew(n - 1);
      OneMoreName(n - 1);
    }
  }

  // ---------- runs, piece by piece ----------

  /** A fresh stream and group. */
  function Fresh(): Sys {
    Sys(Group(map[], 0, 0, map[], []), 0, map[], 0, {}, [])
  }

  predicate NobodyHandles(s: Sys) {
    forall c :: c in s.workers ==> !s.workers[c].Handling?
  }

  /** Handlers answer at once, so the claim time exceeds what they take, as the settings ask. */
  predicate HandlersArePrompt(st: Settings, s: Sys, actions: seq<Action>)
    decreases |actions|
  {
    actions != [] ==>
      && (actions[0].Wait? ==> NobodyHandles(s))
      && HandlersArePrompt(st, Apply(st, s, actions[0]), actions[1..])
  }

  predicate IsARunTo(st: Settings, n: nat, actions: seq<Action>, t: Sys) {
    Exec(st, Fresh(), actions) == t && AtMostWorkers(st, Fresh(), actions, n) && HandlersArePrompt(st, Fresh(), actions)
  }

  /** Some run of at most n workers on a fresh group ends in t. */
  ghost predicate Reached(st: Settings, n: nat, t: Sys) {
    t.workers.Keys <= Names(n) && exists actions :: IsARunTo(st, n, actions, t)
  }

  lemma {:induction false} OneMoreAction(st: Settings, s: Sys, actions: seq<Action>, a: Action, n: nat)
    requires AtMostWorkers(st, s, actions, n) && |Apply(st, Exec(st, s, actions), a).workers| <= n
    requires HandlersArePrompt(st, s, actions) && (a.Wait? ==> NobodyHandles(Exec(st, s, actions)))
    ensures AtMostWorkers(st, s, actions + [a], n) && HandlersArePrompt(st, s, actions + [a])
    ensures Exec(st, s, actions + [a]) == Apply(st, Exec(st, s, actions), a)
    decreases |actions|
  {
    if actions == [] {
      assert actions + [a] == [a] && [a][1..] == [];
      assert AtMostWorkers(st, Apply(st, s, a), [], n) && HandlersArePrompt(st, Apply(st, s, a), []);
    } else {
      assert (actions + [a])[1..] == actions[1..] + [a];
      OneMoreAction(st, Apply(st, s, actions[0]), actions[1..], a, n);
    }
  }

  /** The first n names suffice, and no time passes while a handler works. */
  predicate Suits(s: Sys, a: Action, n: nat) {
    (a.Start? ==> a.consumer in Names(n)) && (a.Wait? ==> NobodyHandles(s))
  }

  lemma Then(st: Settings, n: nat, s: Sys, a: Action)
    requires Reached(st, n, s) && Suits(s, a, n)
    ensures Reached(st, n, Apply(st, s, a))
  {
    var actions :| IsARunTo(st, n, actions, s);
    var t := Apply(st, s, a);
    assert t.workers.Keys <= Names(n);
    NamesAreFew(n);
    SizeOfPart(t.workers.Keys, Names(n));
    assert |t.workers| == |t.workers.Keys|;
    OneMoreAction(st, Fresh(), actions, a, n);
    assert IsARunTo(st, n, actions + [a], t);
  }

  /** The states are closed under the actions of these workers. */
  ghost predicate IsClosed(st: Settings, n: nat, reached: Sys -> bool) {
    forall s, a {:trigger Apply(st, s, a)} :: reached(s) && Suits(s, a, n) ==> reached(Apply(st, s, a))
  }

  lemma RunsAreClosed(st: Settings, n: nat)
    ensures Reached(st, n, Fresh()) && IsClosed(st, n, (t: Sys) => Reached(st, n, t))
  {
    assert IsARunTo(st, n, [], Fresh());
    forall s, a | Reached(st, n, s) && Suits(s, a, n)
      ensures Reached(st, n, Apply(st, s, a))
    {
      Then(st, n, s, a);
    }
  }

  /** A step of a worker whose handler, if it is the one to answer, throws. */
  lemma ThenStep(st: Settings, n: nat, reached: Sys -> bool, s: Sys, c: Consumer, h: Group, v: Worker) returns (t: Sys)
    requires IsClosed(st, n, reached) && reached(s) && c in s.workers
    requires WorkerStep(st, c, s.g, s.now, s.workers[c], Threw(""), false) == (h, v)
    ensures reached(t) && t == s.(g := h, workers := s.workers[c := v], calls := t.calls)
    ensures t.calls == if s.workers[c].Calling? then s.calls + [s.workers[c].entry.id] else s.calls
  {
    t := Apply(st, s, Step(c, Threw(""), false, false));
  }

  lemma ThenPause(st: Settings, n: nat, reached: Sys -> bool, s: Sys) returns (t: Sys)
    requires IsClosed(st, n, reached) && reached(s) && NobodyHandles(s)
    ensures reached(t) && t == s.(now := s.now + st.claimIdleMs)
  {
    t := Apply(st, s, Wait(st.claimIdleMs));
  }

  /** A command of the worker fails. */
  lemma ThenFail(st: Settings, n: nat, reached: Sys -> bool, s: Sys, c: Consumer) returns (t: Sys)
    requires IsClosed(st, n, reached) && reached(s) && c in s.workers
    ensures reached(t) && t == s.(workers := s.workers[c := Recovered(s.workers[c])])
  {
    t := Apply(st, s, Fail(c));
  }

  /** One more worker starts. */
  lemma ThenStart(st: Settings, n: nat, reached: Sys -> bool, s: Sys, k: nat) returns (t: Sys)
    requires IsClosed(st, n, reached) && reached(s) && s.workers.Keys == Names(k) && k < n
    ensures reached(t) && t == s.(workers := s.workers[Name(k) := Reading])
    ensures t.workers.Keys == Names(k + 1)
  {
    OneMoreName(k);
    t := Apply(st, s, Start(Name(k)));
  }

  // ---------- one entry, given out again and again ----------

  function Given(fields: Fields): Entry {
    Entry(1, Some(fields))
  }

  /** The first entry of the stream, pending after d deliveries. */
  predicate Pends(g: Group, fields: Fields, d: nat, at: Instant) {
    && g.entries == map[1 := fields] && g.lastId == 1 && g.lastDelivered == 1
    && g.pending.Keys == {1} && g.pending[1].deliveries == d && g.pending[1].deliveredAt == at
  }

  /** It has been idle long enough to be claimed. */
  ghost predicate Waits(st: Settings, s: Sys, fields: Fields, d: nat) {
    exists at :: Pends(s.g, fields, d, at) && s.now - at >= st.claimIdleMs
  }

  /** The group listens to the entry and can read it. */
  predicate Listened(st: Settings, fields: Fields) {
    Examine(st.rules, Given(fields), 1).GiveToHandler?
  }

  lemma ListenedAtEveryAttempt(st: Settings, fields: Fields, attempt: nat, next: Next)
    requires Listened(st, fields) && attempt <= st.rules.maxDeliveries
    ensures AfterExamination(st.rules, Given(fields), attempt, next) == Calling(Given(fields), attempt, next)
  {
    HandlerSeesExactly(st.rules, Given(fields), 1);
    HandlerSeesExactly(st.rules, Given(fields), attempt);
  }

  lemma ListsTheEntry(st: Settings, g: Group, now: Instant, fields: Fields, d: nat, at: Instant)
    requires Pends(g, fields, d, at) && now - at >= st.claimIdleMs && st.batchSize >= 1
    ensures StalePending(g, now, st.claimIdleMs, st.batchSize) == [PendingEntry(1, d)]
  {
    assert StaleFrom(g, now, st.claimIdleMs, 2, st.batchSize - 1) == [];
    assert StaleFrom(g, now, st.claimIdleMs, 1, st.batchSize) == [PendingEntry(1, d)];
  }

  lemma ClaimsTheEntry(st: Settings, g: Group, now: Instant, fields: Fields, d: nat, at: Instant, c: Consumer)
    requires Pends(g, fields, d, at) && now - at >= st.claimIdleMs
    ensures var (h, claimed) := Claim(g, now, c, 1, st.claimIdleMs);
            claimed == Some(Given(fields)) && Pends(h, fields, d + 1, now)
  {
  }

  lemma NothingNew(st: Settings, g: Group, now: Instant, fields: Fields, d: nat, at: Instant, c: Consumer)
    requires Pends(g, fields, d, at)
    ensures ReadNew(g, now, c, st.batchSize) == (g, [])
  {
    assert NewFrom(g, 2, st.batchSize) == [];
  }

  /** A worker lists the waiting entry. */
  lemma Listing(st: Settings, n: nat, reached: Sys -> bool, s: Sys, fields: Fields, d: nat, c: Consumer)
    returns (t: Sys)
    requires IsClosed(st, n, reached) && reached(s) && Waits(st, s, fields, d) && st.batchSize >= 1
    requires c in s.workers && s.workers[c] == Reading
    ensures reached(t) && t == s.(workers := s.workers[c := Reclaiming([PendingEntry(1, d)])])
  {
    var at :| Pends(s.g, fields, d, at) && s.now - at >= st.claimIdleMs;
    ListsTheEntry(st, s.g, s.now, fields, d, at);
    t := ThenStep(st, n, reached, s, c, s.g, Reclaiming([PendingEntry(1, d)]));
  }

  /** A worker claims the entry by its listing, which may be old. */
  lemma Claiming(st: Settings, n: nat, reached: Sys -> bool, s: Sys, fields: Fields, d: nat, listed: nat, c: Consumer)
    returns (t: Sys)
    requires IsClosed(st, n, reached) && reached(s) && Waits(st, s, fields, d)
    requires Listened(st, fields) && listed + 1 <= st.rules.maxDeliveries
    requires c in s.workers && s.workers[c] == Reclaiming([PendingEntry(1, listed)])
    ensures reached(t) && Pends(t.g, fields, d + 1, s.now)
    ensures t == s.(g := t.g, workers := s.workers[c := Calling(Given(fields), listed + 1, InReclaim([]))])
  {
    var at :| Pends(s.g, fields, d, at) && s.now - at >= st.claimIdleMs;
    ClaimsTheEntry(st, s.g, s.now, fields, d, at, c);
    ListenedAtEveryAttempt(st, fields, listed + 1, InReclaim([]));
    assert [PendingEntry(1, listed)][1..] == [];
    t := ThenStep(st, n, reached, s, c, Claim(s.g, s.now, c, 1, st.claimIdleMs).0,
      Calling(Given(fields), listed + 1, InReclaim([])));
  }

  /** The handler is called and throws. */
  lemma CallAndThrow(st: Settings, n: nat, reached: Sys -> bool, s: Sys, entry: Entry, attempt: nat, next: Next,
                     c: Consumer) returns (t: Sys)
    requires IsClosed(st, n, reached) && reached(s) && c in s.workers && s.workers[c] == Calling(entry, attempt, next)
    ensures reached(t)
    ensures t == s.(workers := s.workers[c := AfterSettlement(entry, Conclude(st.rules, attempt, Threw("")), next)],
                    calls := s.calls + [entry.id])
  {
    t := ThenStep(st, n, reached, s, c, s.g, Handling(entry, attempt, next));
    t := ThenStep(st, n, reached, t, c, s.g, AfterSettlement(entry, Conclude(st.rules, attempt, Threw("")), next));
  }

  /** A worker that has called the handler for the last time fails to write the dead letter. */
  lemma LosesTheDeadLetter(st: Settings, n: nat, reached: Sys -> bool, s: Sys, c: Consumer) returns (t: Sys)
    requires IsClosed(st, n, reached) && reached(s) && c in s.workers
    requires s.workers[c].Reclaiming? || s.workers[c].DeadAdding?
    ensures reached(t)
    ensures t == s.(workers := s.workers[c := if s.workers[c].DeadAdding? then Reading else s.workers[c]])
  {
    if s.workers[c].DeadAdding? {
      t := ThenFail(st, n, reached, s, c);
    } else {
      assert s.workers[c := s.workers[c]] == s.workers;
      t := s;
    }
  }

  /** A claim by a listing below the limit adds a call, and leaves the entry waiting for the next one. */
  lemma ClaimAndCall(st: Settings, n: nat, reached: Sys -> bool, s: Sys, fields: Fields, d: nat, listed: nat,
                     c: Consumer) returns (t: Sys)
    requires IsClosed(st, n, reached) && reached(s) && Waits(st, s, fields, d) && NobodyHandles(s)
    requires Listened(st, fields) && listed + 1 <= st.rules.maxDeliveries
    requires c in s.workers && s.workers[c] == Reclaiming([PendingEntry(1, listed)])
    ensures reached(t) && Waits(st, t, fields, d + 1) && t.calls == s.calls + [1] && NobodyHandles(t)
    ensures t.workers == s.workers[c := if listed + 1 < st.rules.maxDeliveries then Reclaiming([]) else Reading]
  {
    var u := Claiming(st, n, reached, s, fields, d, listed, c);
    u := ThrowAndGoOn(st, n, reached, u, Given(fields), listed + 1, c);
    t := ThenPause(st, n, reached, u);
    assert Pends(t.g, fields, d + 1, s.now) && t.now - s.now >= st.claimIdleMs;
  }

  /** The handler throws, and the entry stays pending even after the last attempt. */
  lemma ThrowAndGoOn(st: Settings, n: nat, reached: Sys -> bool, s: Sys, entry: Entry, attempt: nat, c: Consumer)
    returns (t: Sys)
    requires IsClosed(st, n, reached) && reached(s) && c in s.workers
    requires s.workers[c] == Calling(entry, attempt, InReclaim([])) && NobodyHandles(s)
    ensures reached(t) && t == s.(workers := t.workers, calls := s.calls + [entry.id]) && NobodyHandles(t)
    ensures t.workers == s.workers[c := if attempt < st.rules.maxDeliveries then Reclaiming([]) else Reading]
  {
    t := CallAndThrow(st, n, reached, s, entry, attempt, InReclaim([]), c);
    t := LosesTheDeadLetter(st, n, reached, t, c);
  }

  /** The worker ends its round, with nothing new to read. */
  lemma EndOfRound(st: Settings, n: nat, reached: Sys -> bool, s: Sys, fields: Fields, d: nat, c: Consumer)
    returns (t: Sys)
    requires IsClosed(st, n, reached) && reached(s) && Waits(st, s, fields, d)
    requires c in s.workers && s.workers[c] == Reclaiming([])
    ensures reached(t) && t == s.(workers := s.workers[c := Reading])
  {
    var at :| Pends(s.g, fields, d, at) && s.now - at >= st.claimIdleMs;
    NothingNew(st, s.g, s.now, fields, d, at, c);
    t := ThenStep(st, n, reached, s, c, s.g, ReadingNew);
    t := ThenStep(st, n, reached, t, c, s.g, Batch([], []));
    t := ThenStep(st, n, reached, t, c, s.g, Reading);
  }

  /** A delivery below the limit: the handler is called once more and throws. */
  lemma Retried(st: Settings, n: nat, reached: Sys -> bool, s: Sys, fields: Fields, d: nat, c: Consumer)
    returns (t: Sys)
    requires IsClosed(st, n, reached) && reached(s) && Waits(st, s, fields, d) && Listened(st, fields)
    requires d + 1 < st.rules.maxDeliveries && st.batchSize >= 1 && c in s.workers && s.workers[c] == Reading
    requires NobodyHandles(s)
    ensures reached(t) && Waits(st, t, fields, d + 1)
    ensures t.workers == s.workers && t.calls == s.calls + [1]
  {
    var u := Listing(st, n, reached, s, fields, d, c);
    u := ClaimAndCall(st, n, reached, u, fields, d, d, c);
    t := EndOfRound(st, n, reached, u, fields, d + 1, c);
    assert t.workers == s.workers;
  }

  /** One worker brings the entry to one delivery below the limit, a call for each delivery. */
  lemma {:induction false} RetriedToTheLimit(st: Settings, n: nat, reached: Sys -> bool, s: Sys, fields: Fields,
                                             d: nat, c: Consumer)
    returns (t: Sys)
    requires IsClosed(st, n, reached) && reached(s) && Waits(st, s, fields, d) && Listened(st, fields)
    requires d < st.rules.maxDeliveries && st.batchSize >= 1 && c in s.workers && s.workers[c] == Reading
    requires CallsOf(s.calls, 1) == d && NobodyHandles(s)
    ensures reached(t) && Waits(st, t, fields, st.rules.maxDeliveries - 1)
    ensures t.workers == s.workers && CallsOf(t.calls, 1) == st.rules.maxDeliveries - 1
    decreases st.rules.maxDeliveries - d
  {
    if d + 1 == st.rules.maxDeliveries {
      t := s;
    } else {
      t := Retried(st, n, reached, s, fields, d, c);
      CallsGrow(s.calls, 1, 1);
      t := RetriedToTheLimit(st, n, reached, t, fields, d + 1, c);
    }
  }

  // ---------- all workers list before anyone claims ----------

  /** The first k workers hold a listing that shows the entry one delivery below the limit. */
  predicate AllListed(st: Settings, workers: map<Consumer, Worker>, k: nat) {
    && workers.Keys == Names(k) && st.rules.maxDeliveries >= 1
    && forall c :: c in workers ==> workers[c] == Reclaiming([PendingEntry(1, st.rules.maxDeliveries - 1)])
  }

  lemma {:induction false} EveryoneLists(st: Settings, n: nat, reached: Sys -> bool, s: Sys, fields: Fields, k: nat)
    returns (t: Sys)
    requires IsClosed(st, n, reached) && reached(s) && k <= n && AllListed(st, s.workers, k) && st.batchSize >= 1
    requires Waits(st, s, fields, st.rules.maxDeliveries - 1)
    ensures reached(t) && AllListed(st, t.workers, n) && t == s.(workers := t.workers)
    decreases n - k
  {
    if k == n {
      t := s;
    } else {
      t := ThenStart(st, n, reached, s, k);
      t := Listing(st, n, reached, t, fields, st.rules.maxDeliveries - 1, Name(k));
      t := EveryoneLists(st, n, reached, t, fields, k + 1);
    }
  }

  /** Then they claim in turn, each by its old listing, and each calls the handler. */
  lemma {:induction false} EveryoneCalls(st: Settings, n: nat, reached: Sys -> bool, s: Sys, fields: Fields, d: nat,
                                         left: set<Consumer>)
    returns (t: Sys)
    requires IsClosed(st, n, reached) && reached(s) && Waits(st, s, fields, d) && Listened(st, fields)
             && st.rules.maxDeliveries >= 1 && NobodyHandles(s)
    requires forall c :: c in left ==>
      c in s.workers && s.workers[c] == Reclaiming([PendingEntry(1, st.rules.maxDeliveries - 1)])
    ensures reached(t) && CallsOf(t.calls, 1) == CallsOf(s.calls, 1) + |left|
    decreases |left|
  {
    if left == {} {
      t := s;
    } else {
      var c :| c in left;
      t := ClaimAndCall(st, n, reached, s, fields, d, st.rules.maxDeliveries - 1, c);
      CallsGrow(s.calls, 1, 1);
      SizeWithout(left, c);
      t := EveryoneCalls(st, n, reached, t, fields, d + 1, left - {c});
    }
  }

  // ---------- the run ----------

  /** One entry on the stream, given to nobody yet. */
  function Holding(fields: Fields): Group {
    Group(map[1 := fields], 1, 0, map[], [])
  }

  /** The entry is published and one worker starts. */
  lemma Published(st: Settings, n: nat, reached: Sys -> bool, fields: Fields) returns (t: Sys)
    requires IsClosed(st, n, reached) && reached(Fresh()) && n >= 1
    ensures reached(t) && t == Fresh().(g := Holding(fields), workers := t.workers)
    ensures t.workers.Keys == Names(1) && Name(0) in t.workers && t.workers[Name(0)] == Reading
  {
    assert Names(0) == {};
    t := ThenStart(st, n, reached, Apply(st, Fresh(), Publish(fields)), 0);
  }

  lemma ReadsTheEntry(st: Settings, fields: Fields, now: Instant, c: Consumer)
    requires st.batchSize >= 1
    ensures var (h, entries) := ReadNew(Holding(fields), now, c, st.batchSize);
            entries == [Given(fields)] && Pends(h, fields, 1, now)
  {
    var g := Holding(fields);
    assert NewFrom(g, 2, st.batchSize - 1) == [];
    assert NewFrom(g, 1, st.batchSize) == [Given(fields)];
    assert [Given(fields)][0].id in IdsOf([Given(fields)]);
  }

  lemma NothingToReclaim(st: Settings, fields: Fields, now: Instant)
    ensures StalePending(Holding(fields), now, st.claimIdleMs, st.batchSize) == []
  {
    assert StaleFrom(Holding(fields), now, st.claimIdleMs, 1, st.batchSize) == [];
  }

  /** The worker reads the new entry. */
  lemma ReadFirst(st: Settings, n: nat, reached: Sys -> bool, s: Sys, fields: Fields, c: Consumer) returns (t: Sys)
    requires IsClosed(st, n, reached) && reached(s) && s.g == Holding(fields) && c in s.workers
             && s.workers[c] == Reading
    requires st.batchSize >= 1 && st.rules.maxDeliveries >= 1 && Listened(st, fields)
    ensures reached(t) && Pends(t.g, fields, 1, s.now)
    ensures t == s.(g := t.g, workers := s.workers[c := Calling(Given(fields), 1, InBatch([], []))])
  {
    NothingToReclaim(st, fields, s.now);
    t := ThenStep(st, n, reached, s, c, s.g, Reclaiming([]));
    t := ThenStep(st, n, reached, t, c, s.g, ReadingNew);
    t := ReadAndExamine(st, n, reached, t, fields, c);
  }

  lemma ReadAndExamine(st: Settings, n: nat, reached: Sys -> bool, s: Sys, fields: Fields, c: Consumer) returns (t: Sys)
    requires IsClosed(st, n, reached) && reached(s) && s.g == Holding(fields)
    requires c in s.workers && s.workers[c] == ReadingNew
    requires st.batchSize >= 1 && st.rules.maxDeliveries >= 1 && Listened(st, fields)
    ensures reached(t) && Pends(t.g, fields, 1, s.now)
    ensures t == s.(g := t.g, workers := s.workers[c := Calling(Given(fields), 1, InBatch([], []))])
  {
    ReadsTheEntry(st, fields, s.now, c);
    ListenedAtEveryAttempt(st, fields, 1, InBatch([], []));
    assert [Given(fields)][1..] == [];
    var h := ReadNew(s.g, s.now, c, st.batchSize).0;
    t := ThenStep(st, n, reached, s, c, h, Batch([Given(fields)], []));
    t := ThenStep(st, n, reached, t, c, h, Calling(Given(fields), 1, InBatch([], [])));
  }

  /** The first delivery and the first call. */
  lemma FirstCall(st: Settings, n: nat, reached: Sys -> bool, fields: Fields) returns (t: Sys)
    requires IsClosed(st, n, reached) && reached(Fresh()) && n >= 1 && Listened(st, fields)
             && st.rules.maxDeliveries >= 1 && st.batchSize >= 1
    ensures reached(t) && Pends(t.g, fields, 1, t.now) && t.calls == [1] && t.workers.Keys == Names(1) == {Name(0)}
    ensures t.workers[Name(0)]
         == AfterSettlement(Given(fields), Conclude(st.rules, 1, Threw("")), InBatch([], []))
  {
    OneMoreName(0);
    t := Published(st, n, reached, fields);
    t := ReadFirst(st, n, reached, t, fields, Name(0));
    t := CallAndThrow(st, n, reached, t, Given(fields), 1, InBatch([], []), Name(0));
  }

  /** Below the limit the worker is back at the start of its loop. */
  lemma FirstRound(st: Settings, n: nat, reached: Sys -> bool, fields: Fields) returns (t: Sys)
    requires IsClosed(st, n, reached) && reached(Fresh()) && n >= 1 && Listened(st, fields)
             && st.rules.maxDeliveries >= 2 && st.batchSize >= 1
    ensures reached(t) && Waits(st, t, fields, 1) && t.calls == [1] && t.workers.Keys == Names(1) == {Name(0)}
    ensures t.workers[Name(0)] == Reading
  {
    var u := FirstCall(st, n, reached, fields);
    t := ThenStep(st, n, reached, u, Name(0), u.g, Reading);
    t := ThenPause(st, n, reached, t);
    assert Pends(t.g, fields, 1, u.now) && t.now - u.now >= st.claimIdleMs;
  }

  /** One worker brings the entry to the limit, then all list it before anyone claims. */
  lemma EveryoneWaits(st: Settings, n: nat, reached: Sys -> bool, fields: Fields) returns (t: Sys)
    requires IsClosed(st, n, reached) && reached(Fresh()) && n >= 1 && Listened(st, fields)
    requires st.rules.maxDeliveries >= 2 && st.batchSize >= 1
    ensures reached(t) && AllListed(st, t.workers, n) && Waits(st, t, fields, st.rules.maxDeliveries - 1)
    ensures CallsOf(t.calls, 1) == st.rules.maxDeliveries - 1
  {
    t := FirstRound(st, n, reached, fields);
    CallsGrow([], 1, 1);
    t := RetriedToTheLimit(st, n, reached, t, fields, 1, Name(0));
    t := Listing(st, n, reached, t, fields, st.rules.maxDeliveries - 1, Name(0));
    OneMoreName(0);
    t := EveryoneLists(st, n, reached, t, fields, 1);
  }

  /** With a limit above one, every worker but the one that reaches the limit adds a call. */
  lemma EveryWorkerCalls(st: Settings, n: nat, reached: Sys -> bool, fields: Fields) returns (t: Sys)
    requires IsClosed(st, n, reached) && reached(Fresh()) && n >= 1 && Listened(st, fields)
             && st.rules.maxDeliveries >= 2 && st.batchSize >= 1
    ensures reached(t) && CallsOf(t.calls, 1) == st.rules.maxDeliveries - 1 + n
  {
    t := EveryoneWaits(st, n, reached, fields);
    NamesAreFew(n);
    t := EveryoneCalls(st, n, reached, t, fields, st.rules.maxDeliveries - 1, Names(n));
  }

  /**
   * For every limit and every number of workers there is a run with exactly the most calls the bound allows, and with
   * handlers that answer at once.
   */
  lemma TheBoundIsReached(st: Settings, n: nat, fields: Fields) returns (actions: seq<Action>, id: StreamId)
    requires Listened(st, fields) && n >= 1 && st.rules.maxDeliveries >= 1 && st.batchSize >= 1
    ensures Init(Fresh()) && AtMostWorkers(st, Fresh(), actions, n) && HandlersArePrompt(st, Fresh(), actions)
    ensures CallsOf(Exec(st, Fresh(), actions).calls, id) == MostCalls(st.rules.maxDeliveries, n)
  {
    id := 1;
    var t;
    RunsAreClosed(st, n);
    var reached := (u: Sys) => Reached(st, n, u);
    if st.rules.maxDeliveries == 1 {
      t := FirstCall(st, n, reached, fields);
      CallsGrow([], 1, 1);
    } else {
      t := EveryWorkerCalls(st, n, reached, fields);
    }
    assert Reached(st, n, t);
    actions :| IsARunTo(st, n, actions, t);
  }

  /** No run with at most n workers calls a handler for one entry more than maxDeliveries times. */
  ghost predicate KeepsTheLimit(st: Settings, n: nat) {
    forall s, actions, id :: Init(s) && AtMostWorkers(st, s, actions, n) ==>
      CallsOf(Exec(st, s, actions).calls, id) <= st.rules.maxDeliveries
  }

  /** The same of the runs in which handlers answer at once. */
  ghost predicate KeepsTheLimitWhenPrompt(st: Settings, n: nat) {
    forall s, actions, id :: Init(s) && AtMostWorkers(st, s, actions, n) && HandlersArePrompt(st, s, actions) ==>
      CallsOf(Exec(st, s, actions).calls, id) <= st.rules.maxDeliveries
  }

  /**
   * The limit on deliveries is one on handler calls exactly for a single worker, and where only one delivery is
   * allowed. It makes no difference how long handlers take.
   */
  lemma TheLimitHoldsExactlyForOne(st: Settings, n: nat, fields: Fields)
    requires Listened(st, fields) && n >= 1 && st.rules.maxDeliveries >= 1 && st.batchSize >= 1
    ensures KeepsTheLimit(st, n) <==> n == 1 || st.rules.maxDeliveries == 1
    ensures KeepsTheLimitWhenPrompt(st, n) <==> n == 1 || st.rules.maxDeliveries == 1
  {
    if n == 1 || st.rules.maxDeliveries == 1 {
      forall s, actions, id | Init(s) && AtMostWorkers(st, s, actions, n)
        ensures CallsOf(Exec(st, s, actions).calls, id) <= st.rules.maxDeliveries
      {
        HandlerCallsAreBounded(st, s, actions, n, id);
      }
    } else {
      var actions, id := TheBoundIsReached(st, n, fields);
      assert !(CallsOf(Exec(st, Fresh(), actions).calls, id) <= st.rules.maxDeliveries);
    }
  }
}
