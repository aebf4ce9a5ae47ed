/** The migration runner: `up` and `down` of one instance. */
module MigrationRunner {
  import opened Common
  import opened Migration
  import opened MigrationLock
  import opened MigrationRun

  /** How the steps of one call turn out: which database calls fail and how long each migration works. */
  datatype Fate = Fate(fails: (Db, Pc) -> bool, work: Step -> nat)

  function WorkMs(cfg: Config, pc: Pc, fate: Fate): nat {
    if !pc.CommitUp? || pc.plan == [] then 0
    else match FindStep(cfg.steps, pc.plan[0].version)
      case None => 0
      case Some(step) => fate.work(step)
  }

  function Remaining(pc: Pc): nat {
    match pc
    case Over(_) => 0
    case Releasing(_) => 1
    case NextUp(plan, _) => 2 * |plan| + 3
    case CommitUp(plan, _) => 2 * |plan| + 2
    case CommitDown(_) => 2
    case RenewDown(_) => 3
    case _ => 4
  }

  predicate InSection(pc: Pc) {
    !pc.Begin? && !pc.Acquiring?
  }

  /** Every step of the section brings its end closer. */
  lemma StepGoesDown(cfg: Config, owner: Owner, db: Db, now: Instant, i: Instance, fails: bool, durationMs: int)
    requires InSection(i.pc) && !i.pc.Over?
    ensures var next := InstanceStep(cfg, owner, db, now, i, fails, durationMs).1.pc;
            InSection(next) && !next.Reading? && (i.pc.Reading? || Remaining(next) < Remaining(i.pc))
  {
  }

  /** The locked section, undisturbed, from a position to its end. */
  function RunFrom(cfg: Config, owner: Owner, db: Db, now: Instant, i: Instance, fate: Fate): (Db, Answer)
    requires InSection(i.pc)
    decreases i.pc.Reading?, Remaining(i.pc)
  {
    if i.pc.Over? then (db, i.pc.answer)
    else
      var later := now + WorkMs(cfg, i.pc, fate);
      var (after, next) := InstanceStep(cfg, owner, db, later, i, fate.fails(db, i.pc), WorkMs(cfg, i.pc, fate));
      StepGoesDown(cfg, owner, db, later, i, fate.fails(db, i.pc), WorkMs(cfg, i.pc, fate));
      RunFrom(cfg, owner, after, later, next, fate)
  }

  /** One more step of the section. */
  lemma OneStep(cfg: Config, owner: Owner, db: Db, now: Instant, i: Instance, fate: Fate)
    requires InSection(i.pc) && !i.pc.Over?
    ensures var later := now + WorkMs(cfg, i.pc, fate);
            var (after, next) := InstanceStep(cfg, owner, db, later, i, fate.fails(db, i.pc), WorkMs(cfg, i.pc, fate));
            && InSection(next.pc) && RunFrom(cfg, owner, db, now, i, fate)
              == RunFrom(cfg, owner, after, later, next, fate)
            && !next.pc.Reading? && (i.pc.Reading? || Remaining(next.pc) < Remaining(i.pc))
  {
    StepGoesDown(cfg, owner, db, now + WorkMs(cfg, i.pc, fate), i, fate.fails(db, i.pc), WorkMs(cfg, i.pc, fate));
  }

  /** After the read under the lock. */
  lemma ReadStep(cfg: Config, owner: Owner, db: Db, now: Instant, kind: Kind, lease: Option<Instant>, fate: Fate)
    ensures var next := if fate.fails(db, Reading(kind)) then Releasing(Failed(StepFailed))
            else AfterReading(cfg, db, kind);
            && InSection(next)
            && RunFrom(cfg, owner, db, now, Instance(Reading(kind), lease), fate)
               == RunFrom(cfg, owner, db, now, Instance(next, lease), fate)
  {
    OneStep(cfg, owner, db, now, Instance(Reading(kind), lease), fate);
  }

  // ---------- the section and the protocol ----------

  lemma {:induction false} ExecSplits(cfg: Config, s: Sys, a: seq<Action>, b: seq<Action>)
    ensures Exec(cfg, s, a + b) == Exec(cfg, Exec(cfg, s, a), b)
    decreases |a|
  {
    if a == [] {
      assert a + b == b;
    } else {
      assert (a + b)[1..] == a[1..] + b;
      ExecSplits(cfg, Apply(cfg, s, a[0]), a[1..], b);
    }
  }

  /** Working for a while, then taking the step. */
  lemma WorkThenAct(cfg: Config, owner: Owner, s: Sys, ms: nat, fails: bool)
    requires owner in s.instances
    ensures var t := Exec(cfg, s, [Pass(ms), Act(owner, fails, ms)]);
            var (db, next) := InstanceStep(cfg, owner, s.db, s.now + ms, s.instances[owner], fails, ms);
            t.db == db && t.now == s.now + ms && owner in t.instances && t.instances[owner] == next
  {
    var a, b := Pass(ms), Act(owner, fails, ms);
    assert [a, b][1..] == [b] && [b][1..] == [];
    assert Exec(cfg, Apply(cfg, s, a), [b]) == Exec(cfg, Apply(cfg, Apply(cfg, s, a), b), []);
  }

  /** Two positions of the section with the same rest, the second nearer to the end. */
  predicate LeadsTo(cfg: Config, owner: Owner, db: Db, now: Instant, i: Instance, after: Db, later: Instant,
                    next: Instance, fate: Fate)
    requires InSection(i.pc)
  {
    && InSection(next.pc) && !next.pc.Reading? && (i.pc.Reading? || Remaining(next.pc) < Remaining(i.pc))
    && RunFrom(cfg, owner, db, now, i, fate) == RunFrom(cfg, owner, after, later, next, fate)
  }

  lemma OneStepLeads(cfg: Config, owner: Owner, db: Db, now: Instant, i: Instance, fate: Fate, later: Db,
                     next: Instance)
    requires InSection(i.pc) && !i.pc.Over?
    requires InstanceStep(cfg, owner, db, now + WorkMs(cfg, i.pc, fate), i, fate.fails(db, i.pc),
               WorkMs(cfg, i.pc, fate))
          == (later, next)
    ensures LeadsTo(cfg, owner, db, now, i, later, now + WorkMs(cfg, i.pc, fate), next, fate)
  {
    OneStep(cfg, owner, db, now, i, fate);
  }

  /** One step of the section, as actions of the protocol. */
  lemma SectionStep(cfg: Config, owner: Owner, s: Sys, fate: Fate) returns (first: seq<Action>)
    requires owner in s.instances && InSection(s.instances[owner].pc) && !s.instances[owner].pc.Over?
    ensures var t := Exec(cfg, s, first);
            owner in t.instances
            && LeadsTo(cfg, owner, s.db, s.now, s.instances[owner], t.db, t.now, t.instances[owner], fate)
  {
    var i := s.instances[owner];
    var work := WorkMs(cfg, i.pc, fate);
    first := [Pass(work), Act(owner, fate.fails(s.db, i.pc), work)];
    WorkThenAct(cfg, owner, s, work, fate.fails(s.db, i.pc));
    var t := Exec(cfg, s, first);
    OneStepLeads(cfg, owner, s.db, s.now, i, fate, t.db, t.instances[owner]);
  }

  /** An undisturbed section is a run of the protocol, so whatever its runs keep, `up` and `down` keep. */
  lemma {:induction false} SectionIsARun(cfg: Config, owner: Owner, s: Sys, fate: Fate) returns (actions: seq<Action>)
    requires owner in s.instances && InSection(s.instances[owner].pc)
    ensures var (db, answer) := RunFrom(cfg, owner, s.db, s.now, s.instances[owner], fate);
            var t := Exec(cfg, s, actions);
            t.db == db && owner in t.instances && t.instances[owner].pc == Over(answer)
    decreases s.instances[owner].pc.Reading?, Remaining(s.instances[owner].pc)
  {
    actions := [];
    if !s.instances[owner].pc.Over? {
      var first := SectionStep(cfg, owner, s, fate);
      var rest := SectionIsARun(cfg, owner, Exec(cfg, s, first), fate);
      ExecSplits(cfg, s, first, rest);
      actions := first + rest;
    }
  }

  // ---------- what an undisturbed `up` achieves ----------

  predicate NeverFails(fate: Fate, db: Db, pc: Pc) {
    !fate.fails(db, pc)
  }

  ghost predicate AllGoesWell(fate: Fate) {
    forall db, pc :: NeverFails(fate, db, pc)
  }

  lemma QuietRenew(
    cfg: Config, owner: Owner, db: Db, now: Instant, plan: seq<Step>, applied: seq<Record>, lease: Option<Instant>,
    fate: Fate)
    returns (renewed: Db, held: Option<Instant>)
    requires plan != [] && FindStep(cfg.steps, plan[0].version).Some? && Owns(db, owner) && AllGoesWell(fate)
    ensures renewed == db.(lock := renewed.lock) && Owns(renewed, owner)
    ensures RunFrom(cfg, owner, db, now, Instance(NextUp(plan, applied), lease), fate)
         == RunFrom(cfg, owner, renewed, now, Instance(CommitUp(plan, applied), held), fate)
  {
    assert NeverFails(fate, db, NextUp(plan, applied));
    OneStep(cfg, owner, db, now, Instance(NextUp(plan, applied), lease), fate);
    renewed := db.(lock := Renewed(db.lock, owner, now, cfg.ttlMs).0);
    held := Some(now + cfg.ttlMs);
  }

  lemma QuietCommit(
    cfg: Config, owner: Owner, db: Db, now: Instant, plan: seq<Step>, applied: seq<Record>, held: Option<Instant>,
    fate: Fate)
    returns (next: Db, later: Instant, record: Record)
    requires plan != [] && FindStep(cfg.steps, plan[0].version) == Some(plan[0]) && AllGoesWell(fate)
    requires plan[0].version !in VersionsOf(db.records)
    ensures next == CommitStep(db, plan[0], later, fate.work(plan[0])).0
    ensures record == Record(plan[0].version, plan[0].name, later, fate.work(plan[0]))
    ensures RunFrom(cfg, owner, db, now, Instance(CommitUp(plan, applied), held), fate)
         == RunFrom(cfg, owner, next, later, Instance(NextUp(plan[1..], applied + [record]), held), fate)
  {
    assert NeverFails(fate, db, CommitUp(plan, applied));
    OneStep(cfg, owner, db, now, Instance(CommitUp(plan, applied), held), fate);
    later := now + fate.work(plan[0]);
    next := CommitStep(db, plan[0], later, fate.work(plan[0])).0;
    record := Record(plan[0].version, plan[0].name, later, fate.work(plan[0]));
  }

  /** One undisturbed turn of the loop: the next step of the list is applied and recorded. */
  lemma QuietTurn(
    cfg: Config, owner: Owner, db: Db, now: Instant, plan: seq<Step>, applied: seq<Record>, lease: Option<Instant>,
    fate: Fate)
    returns (next: Db, later: Instant, record: Record, held: Option<Instant>)
    requires plan != [] && FindStep(cfg.steps, plan[0].version) == Some(plan[0])
    requires plan[0].version !in VersionsOf(db.records) && Owns(db, owner) && AllGoesWell(fate)
    ensures next.records == db.records + [record] && Owns(next, owner)
    ensures record == Record(plan[0].version, plan[0].name, later, fate.work(plan[0]))
    ensures next.changes == db.changes + [Did(plan[0].version)]
    ensures RunFrom(cfg, owner, db, now, Instance(NextUp(plan, applied), lease), fate)
         == RunFrom(cfg, owner, next, later, Instance(NextUp(plan[1..], applied + [record]), held), fate)
  {
    var renewed: Db;
    renewed, held := QuietRenew(cfg, owner, db, now, plan, applied, lease, fate);
    next, later, record := QuietCommit(cfg, owner, renewed, now, plan, applied, held, fate);
  }

  /** The database after one more recorded step. */
  lemma OneMoreStep(cfg: Config, db: Db, next: Db, record: Record, later: Instant, ms: int)
    requires ValidList(cfg.steps) && Consistent(cfg, db) && |db.records| < |cfg.steps|
    requires var step := cfg.steps[|db.records|];
             && record == Record(step.version, step.name, later, ms)
             && next.records == db.records + [record] && next.changes == db.changes + [Did(step.version)]
    ensures Consistent(cfg, next)
  {
    NextVersion(db.records, cfg.steps, |db.records|);
    CommitExtends(cfg, db, later, ms);
  }

  /** The whole list is applied, its new records are answered after `applied`, and the lock is free. */
  predicate AppliedAll(cfg: Config, db: Db, applied: seq<Record>, after: Db, answer: Answer) {
    && Consistent(cfg, after) && |after.records| == |cfg.steps| && db.records <= after.records
    && answer == Applied(applied + after.records[|db.records|..]) && after.lock.None?
  }

  lemma QuietLoopEnds(
    cfg: Config, owner: Owner, db: Db, now: Instant, applied: seq<Record>, lease: Option<Instant>, fate: Fate)
    requires Consistent(cfg, db) && |db.records| == |cfg.steps| && Owns(db, owner) && AllGoesWell(fate)
    ensures var (after, answer) := RunFrom(cfg, owner, db, now, Instance(NextUp([], applied), lease), fate);
            AppliedAll(cfg, db, applied, after, answer)
  {
    OneStep(cfg, owner, db, now, Instance(NextUp([], applied), lease), fate);
    QuietEnd(cfg, owner, db, now, Applied(applied), lease, fate);
    assert applied + db.records[|db.records|..] == applied;
  }

  lemma OneRecordMore(cfg: Config, db: Db, next: Db, record: Record, applied: seq<Record>, after: Db, answer: Answer)
    requires next.records == db.records + [record] && AppliedAll(cfg, next, applied + [record], after, answer)
    ensures AppliedAll(cfg, db, applied, after, answer)
  {
    assert after.records[|db.records|] == next.records[|db.records|] == record;
    assert after.records[|db.records|..] == [record] + after.records[|db.records| + 1..];
    assert (applied + [record]) + after.records[|db.records| + 1..] == applied + after.records[|db.records|..];
  }

  lemma {:induction false} QuietLoop(
    cfg: Config, owner: Owner, db: Db, now: Instant, plan: seq<Step>, applied: seq<Record>, lease: Option<Instant>,
    fate: Fate)
    requires ValidList(cfg.steps) && Consistent(cfg, db) && plan == cfg.steps[|db.records|..]
    requires Owns(db, owner) && AllGoesWell(fate)
    ensures var (after, answer) := RunFrom(cfg, owner, db, now, Instance(NextUp(plan, applied), lease), fate);
            AppliedAll(cfg, db, applied, after, answer)
    decreases |plan|
  {
    if plan == [] {
      QuietLoopEnds(cfg, owner, db, now, applied, lease, fate);
    } else {
      NextVersion(db.records, cfg.steps, |db.records|);
      var next, later, record, held := QuietTurn(cfg, owner, db, now, plan, applied, lease, fate);
      OneMoreStep(cfg, db, next, record, later, fate.work(plan[0]));
      QuietLoop(cfg, owner, next, later, plan[1..], applied + [record], held, fate);
      var (after, answer) := RunFrom(cfg, owner, next, later, Instance(NextUp(plan[1..], applied + [record]), held),
        fate);
      OneRecordMore(cfg, db, next, record, applied, after, answer);
    }
  }

  lemma QuietEnd(cfg: Config, owner: Owner, db: Db, now: Instant, answer: Answer, lease: Option<Instant>, fate: Fate)
    requires Owns(db, owner) && AllGoesWell(fate)
    ensures RunFrom(cfg, owner, db, now, Instance(Releasing(answer), lease), fate) == (db.(lock := None), answer)
  {
    assert NeverFails(fate, db, Releasing(answer));
    OneStep(cfg, owner, db, now, Instance(Releasing(answer), lease), fate);
    assert RunFrom(cfg, owner, db.(lock := None), now, Instance(Over(answer), None), fate)
      == (db.(lock := None), answer);
  }

  /**
   * With the lock and no failure, `up` brings the whole list to be applied, answers the new records and lets the lock
   * go.
   */
  lemma QuietUpAppliesTheRest(cfg: Config, owner: Owner, db: Db, now: Instant, lease: Option<Instant>, fate: Fate)
    requires ValidList(cfg.steps) && Consistent(cfg, db) && Owns(db, owner) && AllGoesWell(fate)
    ensures var (after, answer) := RunFrom(cfg, owner, db, now, Instance(Reading(Kind.Up), lease), fate);
            && Consistent(cfg, after) && |after.records| == |cfg.steps| && db.records <= after.records
            && answer == Applied(after.records[|db.records|..]) && after.lock.None?
  {
    ReadingAPrefix(db.records, cfg.steps);
    assert NeverFails(fate, db, Reading(Kind.Up));
    ReadStep(cfg, owner, db, now, Kind.Up, lease, fate);
    QuietLoop(cfg, owner, db, now, cfg.steps[|db.records|..], [], lease, fate);
    var after := RunFrom(cfg, owner, db, now, Instance(NextUp(cfg.steps[|db.records|..], []), lease), fate).0;
    assert [] + after.records[|db.records|..] == after.records[|db.records|..];
  }

  // ---------- what an undisturbed `down` achieves ----------

  /** The record with the greatest version. */
  predicate IsNewest(records: seq<Record>, last: Record) {
    last in records && forall r :: r in records ==> r.version <= last.version
  }

  /** The list in the code has the step of this record, under its name. */
  predicate Knows(steps: seq<Step>, r: Record) {
    exists i :: 0 <= i < |steps| && steps[i].version == r.version && steps[i].name == r.name
  }

  /** The records but one, in their order. */
  predicate AreAllBut(before: seq<Record>, last: Record, after: seq<Record>) {
    exists k :: 0 <= k < |before| && before[k] == last && after == before[..k] + before[k + 1..]
  }

  lemma NewestIsSortedLast(records: seq<Record>, last: Record)
    requires DistinctVersions(records) && IsNewest(records, last)
    ensures var sorted := SortByVersion(records); sorted != [] && sorted[|sorted| - 1] == last
  {
    var sorted := SortByVersion(records);
    SortSorts(records);
    SortKeepsDistinct(records);
    assert last in multiset(records) && last in multiset(sorted);
    var k :| 0 <= k < |sorted| && sorted[k] == last;
    var top := sorted[|sorted| - 1];
    assert top in records && top.version <= last.version;
    assert last.version <= top.version;
  }

  lemma KnownStepIsFound(steps: seq<Step>, r: Record)
    requires ValidList(steps)
    ensures Knows(steps, r) <==> var found := FindStep(steps, r.version); found.Some? && found.value.name == r.name
  {
    FindStepFinds(steps, r.version);
    if Knows(steps, r) {
      var i :| 0 <= i < |steps| && steps[i].version == r.version && steps[i].name == r.name;
      var found := FindStep(steps, r.version);
      assert found.Some?;
      var j :| 0 <= j < |steps| && steps[j] == found.value && steps[j].version == r.version;
      assert i == j;
    }
  }

  lemma {:induction false} WithoutOne(records: seq<Record>, last: Record)
    requires DistinctVersions(records) && last in records
    ensures AreAllBut(records, last, Without(records, last.version))
    decreases |records|
  {
    if records[0] == last {
      WithoutNone(records[1..], last.version);
      assert records[..0] + records[0 + 1..] == records[1..];
    } else {
      var rest := records[1..];
      WithoutOne(rest, last);
      var k :| 0 <= k < |rest| && rest[k] == last && Without(rest, last.version) == rest[..k] + rest[k + 1..];
      assert records[0].version != records[k + 1].version;
      assert records[k + 1] == last;
      assert records[..k + 1] + records[k + 2..] == [records[0]] + (rest[..k] + rest[k + 1..]);
    }
  }

  lemma {:induction false} WithoutNone(records: seq<Record>, version: int)
    requires forall i :: 0 <= i < |records| ==> records[i].version != version
    ensures Without(records, version) == records
    decreases |records|
  {
    if records != [] {
      WithoutNone(records[1..], version);
    }
  }

  lemma QuietUndo(cfg: Config, owner: Owner, db: Db, now: Instant, last: Record, lease: Option<Instant>, fate: Fate)
    requires Owns(db, owner) && AllGoesWell(fate)
    ensures RunFrom(cfg, owner, db, now, Instance(RenewDown(last), lease), fate)
         == (Db(Without(db.records, last.version), None, db.changes + [Undid(last.version)]), Undone(Some(last)))
  {
    var renewed := db.(lock := Renewed(db.lock, owner, now, cfg.ttlMs).0);
    var held := Some(now + cfg.ttlMs);
    assert NeverFails(fate, db, RenewDown(last)) && NeverFails(fate, renewed, CommitDown(last));
    OneStep(cfg, owner, db, now, Instance(RenewDown(last), lease), fate);
    OneStep(cfg, owner, renewed, now, Instance(CommitDown(last), held), fate);
    var undone := CommitDownStep(renewed, Instance(CommitDown(last), held), last).0;
    QuietEnd(cfg, owner, undone, now, Undone(Some(last)), held, fate);
  }

  /** After the read of an undisturbed `down`. */
  lemma QuietDownReads(cfg: Config, owner: Owner, db: Db, now: Instant, lease: Option<Instant>, fate: Fate)
    requires Owns(db, owner) && AllGoesWell(fate)
    ensures var next := AfterReading(cfg, db, Kind.Down);
            RunFrom(cfg, owner, db, now, Instance(Reading(Kind.Down), lease), fate)
            == RunFrom(cfg, owner, db, now, Instance(next, lease), fate)
  {
    assert NeverFails(fate, db, Reading(Kind.Down));
    ReadStep(cfg, owner, db, now, Kind.Down, lease, fate);
  }

  /** What `down` reads in the records. */
  lemma DownReadsTheNewest(cfg: Config, db: Db, last: Record)
    requires ValidList(cfg.steps) && DistinctVersions(db.records) && IsNewest(db.records, last)
    ensures AfterReading(cfg, db, Kind.Down)
         == if Knows(cfg.steps, last) then RenewDown(last) else Releasing(Failed(UnknownLast))
  {
    NewestIsSortedLast(db.records, last);
    KnownStepIsFound(cfg.steps, last);
  }

  /**
   * With the lock and no failure, `down` undoes exactly the newest record if the code still has its step under its
   * name, answers that record and lets the lock go; else it changes nothing but the lock.
   */
  lemma QuietDownUndoesTheNewest(cfg: Config, owner: Owner, db: Db, now: Instant, last: Record, lease: Option<Instant>,
                                 fate: Fate)
    requires ValidList(cfg.steps) && DistinctVersions(db.records) && IsNewest(db.records, last)
    requires Owns(db, owner) && AllGoesWell(fate)
    ensures var (after, answer) := RunFrom(cfg, owner, db, now, Instance(Reading(Kind.Down), lease), fate);
            if Knows(cfg.steps, last) then
              && answer == Undone(Some(last)) && AreAllBut(db.records, last, after.records)
              && after.changes == db.changes + [Undid(last.version)] && after.lock.None?
            else answer == Failed(UnknownLast) && after == db.(lock := None)
  {
    DownReadsTheNewest(cfg, db, last);
    QuietDownReads(cfg, owner, db, now, lease, fate);
    if Knows(cfg.steps, last) {
      WithoutOne(db.records, last);
      QuietUndo(cfg, owner, db, now, last, lease, fate);
    } else {
      QuietEnd(cfg, owner, db, now, Failed(UnknownLast), lease, fate);
    }
  }

  /** On the records of a prefix of the list, `down` takes the last step back; without records it changes nothing. */
  lemma QuietDownShortensThePrefix(cfg: Config, owner: Owner, db: Db, now: Instant, lease: Option<Instant>, fate: Fate)
    requires ValidList(cfg.steps) && Consistent(cfg, db) && Owns(db, owner) && AllGoesWell(fate)
    ensures var (after, answer) := RunFrom(cfg, owner, db, now, Instance(Reading(Kind.Down), lease), fate);
            var n := |db.records|;
            if n == 0 then answer == Undone(None) && after == db.(lock := None)
            else
              && answer == Undone(Some(db.records[n - 1])) && after.records == db.records[..n - 1]
              && after.changes == db.changes + [Undid(db.records[n - 1].version)] && after.lock.None?
              && Consistent(cfg, after)
  {
    PrefixIsSorted(db.records, cfg.steps);
    if db.records == [] {
      QuietDownReads(cfg, owner, db, now, lease, fate);
      QuietEnd(cfg, owner, db, now, Undone(None), lease, fate);
    } else {
      var last := db.records[|db.records| - 1];
      assert Records(last, cfg.steps[|db.records| - 1]);
      QuietDownUndoesTheNewest(cfg, owner, db, now, last, lease, fate);
      var after := RunFrom(cfg, owner, db, now, Instance(Reading(Kind.Down), lease), fate).0;
      AllButTheLast(db.records, last, after.records);
      WithoutLast(db.records);
      UndoShortens(cfg, db);
      SameRecordsStayConsistent(cfg, db.(records := after.records, changes := after.changes), after);
    }
  }

  lemma AllButTheLast(before: seq<Record>, last: Record, after: seq<Record>)
    requires DistinctVersions(before) && AreAllBut(before, last, after) && before[|before| - 1] == last
    ensures after == before[..|before| - 1]
  {
    var k :| 0 <= k < |before| && before[k] == last && after == before[..k] + before[k + 1..];
    assert before[k].version == before[|before| - 1].version;
  }

  lemma SameRecordsStayConsistent(cfg: Config, db: Db, after: Db)
    requires Consistent(cfg, db) && after.records == db.records && after.changes == db.changes
    ensures Consistent(cfg, after)
  {
  }

  class MigrationRunner {
    const cfg: Config
    const fate: Fate
    const store: Database
    const mutex: MongoMigrationLock

    ghost predicate Valid() {
      mutex.store == store && mutex.ttlMs == cfg.ttlMs && mutex.pollMs == cfg.pollMs && cfg.pollMs >= 1
    }

    constructor (cfg: Config, fate: Fate, store: Database, mutex: MongoMigrationLock)
      requires mutex.store == store && mutex.ttlMs == cfg.ttlMs && mutex.pollMs == cfg.pollMs && cfg.pollMs >= 1
      ensures this.cfg == cfg && this.fate == fate && this.store == store && this.mutex == mutex && Valid()
    {
      this.cfg := cfg;
      this.fate := fate;
      this.store := store;
      this.mutex := mutex;
    }

    /** The section's remaining run, from where the instance stands. */
    ghost function Rest(pc: Pc, lease: Option<Instant>): (Db, Answer)
      requires InSection(pc)
      reads store
    {
      RunFrom(cfg, mutex.owner, store.Contents(), store.now, Instance(pc, lease), fate)
    }

    method ReadStatus() returns (status: Status)
      ensures status == StatusOf(store.records, cfg.steps)
    {
      status := MigrationStatus(store.records, cfg.steps);
    }

    /**
     * Reads, and without pending steps takes no lock at all. Otherwise waits for the lock, reads again, and applies
     * what is pending then. `entered` is the database as the lock was taken.
     */
    method Up() returns (answer: Answer, ghost entered: Option<(Db, Instant)>)
      requires Valid()
      modifies store
      ensures var status := StatusOf(old(store.records), cfg.steps);
              if fate.fails(old(store.Contents()), Begin(Kind.Up)) then
                answer == Failed(StepFailed) && store.Contents() == old(store.Contents())
              else if status.conflicts != [] then
                answer == Failed(Conflicting) && store.Contents() == old(store.Contents())
              else if status.pending == [] then
                answer == Applied([]) && store.Contents() == old(store.Contents())
              else if entered.None? then
                answer == Failed(LockNotAcquired) && IsBusy(store.lock, mutex.owner, store.now)
              else
                var (db, now) := entered.value;
                && Owns(db, mutex.owner)
                && (store.Contents(), answer)
                   == RunFrom(cfg, mutex.owner, db, now, Instance(Reading(Kind.Up), Some(now + cfg.ttlMs)), fate)
    {
      entered := None;
      if fate.fails(store.Contents(), Begin(Kind.Up)) {
        return Failed(StepFailed), None;
      }
      var before := ReadStatus();
      if before.conflicts != [] {
        return Failed(Conflicting), None;
      }
      if before.pending == [] {
        return Applied([]), None;
      }
      var acquired := mutex.Acquire();
      if !acquired {
        return Failed(LockNotAcquired), None;
      }
      entered := Some((store.Contents(), store.now));
      answer := UpLocked(Some(store.now + cfg.ttlMs));
    }

    method UpLocked(ghost lease: Option<Instant>) returns (answer: Answer)
      requires Valid()
      modifies store
      ensures (store.Contents(), answer) == old(Rest(Reading(Kind.Up), lease))
    {
      ReadStep(cfg, mutex.owner, store.Contents(), store.now, Kind.Up, lease, fate);
      if fate.fails(store.Contents(), Reading(Kind.Up)) {
        answer := LetGo(Failed(StepFailed), lease);
        return;
      }
      var current := ReadStatus();
      if current.conflicts != [] {
        answer := LetGo(Failed(Conflicting), lease);
        return;
      }
      answer := ApplyAll(current.pending, lease);
    }

    /** The loop over the pending steps: renew the lock, apply, record. */
    method ApplyAll(plan: seq<Step>, ghost lease: Option<Instant>) returns (answer: Answer)
      requires Valid()
      modifies store
      ensures (store.Contents(), answer) == old(Rest(NextUp(plan, []), lease))
    {
      ghost var goal := Rest(NextUp(plan, []), lease);
      ghost var held := lease;
      var applied: seq<Record> := [];
      var k := 0;
      while k < |plan|
        invariant 0 <= k <= |plan|
        invariant Rest(NextUp(plan[k..], applied), held) == goal
      {
        ghost var rest := plan[k + 1..];
        assert plan[k..][1..] == rest && plan[k..][0] == plan[k];
        var outcome: Outcome;
        outcome, held := ApplyOne(plan[k], plan[k..], applied, held);
        match outcome {
          case Stops(reason) =>
            answer := LetGo(reason, held);
            return;
          case GoesOn(now) => applied := now;
        }
        k := k + 1;
        assert plan[k..] == rest;
      }
      OneStep(cfg, mutex.owner, store.Contents(), store.now, Instance(NextUp([], applied), held), fate);
      assert plan[k..] == [];
      answer := LetGo(Applied(applied), held);
    }

    method ApplyOne(step: Step, plan: seq<Step>, applied: seq<Record>, ghost lease: Option<Instant>)
      returns (outcome: Outcome, ghost held: Option<Instant>)
      requires Valid() && plan != [] && plan[0] == step
      modifies store
      ensures old(Rest(NextUp(plan, applied), lease))
           == match outcome
              case Stops(reason) => Rest(Releasing(reason), held)
              case GoesOn(now) => Rest(NextUp(plan[1..], now), held)
    {
      held := lease;
      OneStep(cfg, mutex.owner, store.Contents(), store.now, Instance(NextUp(plan, applied), lease), fate);
      var found := FindStep(cfg.steps, step.version);
      if found.None? {
        return GoesOn(applied), held;
      }
      if fate.fails(store.Contents(), NextUp(plan, applied)) {
        return Stops(Failed(StepFailed)), held;
      }
      var renewed := mutex.Renew();
      if !renewed {
        return Stops(Failed(LockLost)), held;
      }
      held := Some(store.now + cfg.ttlMs);
      OneStep(cfg, mutex.owner, store.Contents(), store.now, Instance(CommitUp(plan, applied), held), fate);
      outcome := Commit(found.value, plan, applied);
    }

    /** The transaction: the step's effect and its record, or neither. */
    method Commit(step: Step, plan: seq<Step>, applied: seq<Record>) returns (outcome: Outcome)
      requires Valid() && plan != [] && FindStep(cfg.steps, plan[0].version) == Some(step)
      modifies store
      ensures store.now == old(store.now) + fate.work(step)
      ensures old(fate.fails(store.Contents(), CommitUp(plan, applied))) ==>
                outcome == Stops(Failed(StepFailed)) && store.Contents() == old(store.Contents())
      ensures !old(fate.fails(store.Contents(), CommitUp(plan, applied))) ==>
                var (db, done) := CommitStep(old(store.Contents()), step, store.now, fate.work(step));
                && store.Contents() == db
                && outcome == (if done then GoesOn(
                     applied + [Record(step.version, step.name, store.now, fate.work(step))])
                               else Stops(Failed(AlreadyRecorded)))
    {
      var startedAt := store.now;
      var failing := fate.fails(store.Contents(), CommitUp(plan, applied));
      store.now := store.now + fate.work(step);
      if failing {
        return Stops(Failed(StepFailed));
      }
      if step.version in VersionsOf(store.records) {
        return Stops(Failed(AlreadyRecorded));
      }
      var record := Record(step.version, step.name, store.now, store.now - startedAt);
      store.changes := store.changes + [Did(step.version)];
      store.records := store.records + [record];
      return GoesOn(applied + [record]);
    }

    /** Undoes the newest recorded step, if the code still knows it. */
    method Down() returns (answer: Answer, ghost entered: Option<(Db, Instant)>)
      requires Valid()
      modifies store
      ensures if fate.fails(old(store.Contents()), Begin(Kind.Down)) then
                answer == Failed(StepFailed) && store.Contents() == old(store.Contents())
              else if entered.None? then
                answer == Failed(LockNotAcquired) && IsBusy(store.lock, mutex.owner, store.now)
              else
                var (db, now) := entered.value;
                && Owns(db, mutex.owner)
                && (store.Contents(), answer)
                   == RunFrom(cfg, mutex.owner, db, now, Instance(Reading(Kind.Down), Some(now + cfg.ttlMs)), fate)
    {
      entered := None;
      if fate.fails(store.Contents(), Begin(Kind.Down)) {
        return Failed(StepFailed), None;
      }
      var acquired := mutex.Acquire();
      if !acquired {
        return Failed(LockNotAcquired), None;
      }
      entered := Some((store.Contents(), store.now));
      answer := DownLocked(Some(store.now + cfg.ttlMs));
    }

    method DownLocked(ghost lease: Option<Instant>) returns (answer: Answer)
      requires Valid()
      modifies store
      ensures (store.Contents(), answer) == old(Rest(Reading(Kind.Down), lease))
    {
      ReadStep(cfg, mutex.owner, store.Contents(), store.now, Kind.Down, lease, fate);
      if fate.fails(store.Contents(), Reading(Kind.Down)) {
        answer := LetGo(Failed(StepFailed), lease);
        return;
      }
      var current := ReadStatus();
      if current.applied == [] {
        answer := LetGo(Undone(None), lease);
        return;
      }
      var last := current.applied[|current.applied| - 1];
      var found := FindStep(cfg.steps, last.version);
      if found.None? || found.value.name != last.name {
        answer := LetGo(Failed(UnknownLast), lease);
        return;
      }
      answer := Undo(last, lease);
    }

    method Undo(last: Record, ghost lease: Option<Instant>) returns (answer: Answer)
      requires Valid()
      modifies store
      ensures (store.Contents(), answer) == old(Rest(RenewDown(last), lease))
    {
      OneStep(cfg, mutex.owner, store.Contents(), store.now, Instance(RenewDown(last), lease), fate);
      if fate.fails(store.Contents(), RenewDown(last)) {
        answer := LetGo(Failed(StepFailed), lease);
        return;
      }
      var renewed := mutex.Renew();
      if !renewed {
        answer := LetGo(Failed(LockLost), lease);
        return;
      }
      ghost var held := Some(store.now + cfg.ttlMs);
      OneStep(cfg, mutex.owner, store.Contents(), store.now, Instance(CommitDown(last), held), fate);
      if fate.fails(store.Contents(), CommitDown(last)) {
        answer := LetGo(Failed(StepFailed), held);
        return;
      }
      store.changes := store.changes + [Undid(last.version)];
      store.records := Without(store.records, last.version);
      answer := LetGo(Undone(Some(last)), held);
    }

    method LetGo(answer: Answer, ghost lease: Option<Instant>) returns (result: Answer)
      requires Valid()
      modifies store
      ensures (store.Contents(), result) == old(Rest(Releasing(answer), lease))
    {
      OneStep(cfg, mutex.owner, store.Contents(), store.now, Instance(Releasing(answer), lease), fate);
      if !fate.fails(store.Contents(), Releasing(answer)) {
        mutex.Release();
      }
      result := answer;
    }
  }

  datatype Outcome = Stops(answer: Answer) | GoesOn(applied: seq<Record>)
}
