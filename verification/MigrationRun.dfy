/**
 * Instances of a service applying and undoing migrations: every read, lock operation and transaction is one
 * atomic step on the shared database, and an instance may stall or crash between any two of them.
 */
module MigrationRun {
  import opened Common
  import opened Migration
  import opened MigrationLock

  datatype Kind = Up | Down

  datatype Failure = Conflicting | LockNotAcquired | LockLost | AlreadyRecorded | UnknownLast | StepFailed

  datatype Answer = Applied(records: seq<Record>) | Undone(record: Option<Record>) | Failed(failure: Failure)

  datatype Pc =
    | Begin(kind: Kind)
    | Acquiring(kind: Kind, deadline: Instant)
    | Reading(kind: Kind)
    | NextUp(plan: seq<Step>, applied: seq<Record>)
    | CommitUp(plan: seq<Step>, applied: seq<Record>)
    | RenewDown(record: Record)
    | CommitDown(record: Record)
    | Releasing(answer: Answer)
    | Over(answer: Answer)

  datatype Config = Config(steps: seq<Step>, ttlMs: nat, pollMs: nat)

  /** An instance and, once it has the lock, the moment until which its last write keeps it. */
  datatype Instance = Instance(pc: Pc, lease: Option<Instant>)

  function Without(records: seq<Record>, version: int): seq<Record> {
    if records == [] then []
    else (if records[0].version == version then [] else [records[0]]) + Without(records[1..], version)
  }

  function AfterReading(cfg: Config, db: Db, kind: Kind): Pc {
    var status := StatusOf(db.records, cfg.steps);
    match kind
    case Up => if status.conflicts != [] then Releasing(Failed(Conflicting)) else NextUp(status.pending, [])
    case Down =>
      if status.applied == [] then Releasing(Undone(None))
      else
        var last := status.applied[|status.applied| - 1];
        var step := FindStep(cfg.steps, last.version);
        if step.None? || step.value.name != last.name then Releasing(Failed(UnknownLast)) else RenewDown(last)
  }

  /** The transaction of one step: its effect and its record together, or neither. */
  function CommitStep(db: Db, step: Step, now: Instant, durationMs: int): (Db, bool) {
    if step.version in VersionsOf(db.records) then (db, false)
    else (db.(records := db.records + [Record(step.version, step.name, now, durationMs)],
              changes := db.changes + [Did(step.version)]), true)
  }

  function BeginStep(cfg: Config, db: Db, now: Instant, kind: Kind): Pc {
    if kind.Down? then Acquiring(kind, now + cfg.ttlMs + cfg.pollMs)
    else
      var status := StatusOf(db.records, cfg.steps);
      if status.conflicts != [] then Over(Failed(Conflicting))
      else if status.pending == [] then Over(Applied([]))
      else Acquiring(kind, now + cfg.ttlMs + cfg.pollMs)
  }

  function AcquireStep(cfg: Config, owner: Owner, db: Db, now: Instant, i: Instance, kind: Kind,
                       deadline: Instant): (Db, Instance) {
    var (lock, taken) := Take(db.lock, owner, now, cfg.ttlMs);
    if taken then (db.(lock := lock), Instance(Reading(kind), Some(now + cfg.ttlMs)))
    else (db, if now >= deadline then i.(pc := Over(Failed(LockNotAcquired))) else i)
  }

  /** Renewing the lock before a transaction. */
  function RenewStep(cfg: Config, owner: Owner, db: Db, now: Instant, i: Instance, next: Pc): (Db, Instance) {
    var (lock, renewed) := Renewed(db.lock, owner, now, cfg.ttlMs);
    if renewed then (db.(lock := lock), Instance(next, Some(now + cfg.ttlMs)))
    else (db, i.(pc := Releasing(Failed(LockLost))))
  }

  function CommitUpStep(db: Db, now: Instant, i: Instance, step: Step, rest: seq<Step>, applied: seq<Record>,
                        durationMs: int)
    : (Db, Instance)
  {
    var (committed, done) := CommitStep(db, step, now, durationMs);
    (committed,
     i.(pc := if done then NextUp(rest, applied + [Record(step.version, step.name, now, durationMs)])
              else Releasing(Failed(AlreadyRecorded))))
  }

  function CommitDownStep(db: Db, i: Instance, record: Record): (Db, Instance) {
    (db.(records := Without(db.records, record.version), changes := db.changes + [Undid(record.version)]),
     i.(pc := Releasing(Undone(Some(record)))))
  }

  /** One step of an instance; `fails` makes the database call or the migration itself fail. */
  function InstanceStep(cfg: Config, owner: Owner, db: Db, now: Instant, i: Instance, fails: bool, durationMs: int)
    : (Db, Instance)
  {
    match i.pc
    case Begin(kind) => (db, i.(pc := if fails then Over(Failed(StepFailed)) else BeginStep(cfg, db, now, kind)))
    case Acquiring(kind, deadline) =>
      if fails then (db, i.(pc := Over(Failed(StepFailed)))) else AcquireStep(cfg, owner, db, now, i, kind, deadline)
    case Reading(kind) => (db, i.(pc := if fails then Releasing(Failed(StepFailed)) else AfterReading(cfg, db, kind)))
    case NextUp(plan, applied) =>
      if plan == [] then (db, i.(pc := Releasing(Applied(applied))))
      else if FindStep(cfg.steps, plan[0].version).None? then (db, i.(pc := NextUp(plan[1..], applied)))
      else if fails then (db, i.(pc := Releasing(Failed(StepFailed))))
      else RenewStep(cfg, owner, db, now, i, CommitUp(plan, applied))
    case CommitUp(plan, applied) =>
      var found := if plan == [] then None else FindStep(cfg.steps, plan[0].version);
      if fails || found.None? then (db, i.(pc := Releasing(Failed(StepFailed))))
      else CommitUpStep(db, now, i, found.value, plan[1..], applied, durationMs)
    case RenewDown(record) =>
      if fails then (db, i.(pc := Releasing(Failed(StepFailed))))
      else RenewStep(cfg, owner, db, now, i, CommitDown(record))
    case CommitDown(record) =>
      if fails then (db, i.(pc := Releasing(Failed(StepFailed)))) else CommitDownStep(db, i, record)
    case Releasing(answer) =>
      (if fails then db else db.(lock := Released(db.lock, owner)), Instance(Over(answer), None))
    case Over(_) => (db, i)
  }

  /**
   * An instance tries for the lock until a deadline one poll after the life of a lock that starts now; it takes a lock
   * that nobody else holds, and gives up when another one's is still alive then.
   */
  lemma AcquiringExactly(cfg: Config, owner: Owner, db: Db, now: Instant, kind: Kind, deadline: Instant)
    ensures BeginStep(cfg, db, now, kind).Acquiring? ==>
              BeginStep(cfg, db, now, kind) == Acquiring(kind, now + cfg.ttlMs + cfg.pollMs)
    ensures var i := Instance(Acquiring(kind, deadline), None);
            var (after, next) := InstanceStep(cfg, owner, db, now, i, false, 0);
            if IsBusy(db.lock, owner, now) then
              after == db && (if now < deadline then next == i else next.pc == Over(Failed(LockNotAcquired)))
            else
              && next == Instance(Reading(kind), Some(now + cfg.ttlMs))
              && after.lock.Some? && after.lock.value.owner == owner && after.lock.value.expiresAt == now + cfg.ttlMs
              && after.records == db.records && after.changes == db.changes
  {
  }

  datatype Sys = Sys(db: Db, now: Instant, instances: map<Owner, Instance>)

  datatype Action =
    | Start(owner: Owner, kind: Kind)
    | Act(owner: Owner, fails: bool, durationMs: int)
    | Crash(owner: Owner)
    | Pass(ms: nat)

  function Apply(cfg: Config, s: Sys, a: Action): Sys {
    match a
    case Start(o, kind) =>
      if o in s.instances then s else s.(instances := s.instances[o := Instance(Begin(kind), None)])
    case Act(o, fails, durationMs) =>
      if o !in s.instances then s
      else
        var (db, next) := InstanceStep(cfg, o, s.db, s.now, s.instances[o], fails, durationMs);
        s.(db := db, instances := s.instances[o := next])
    case Crash(o) => s.(instances := s.instances - {o})
    case Pass(ms) => s.(now := s.now + ms)
  }

  function Exec(cfg: Config, s: Sys, actions: seq<Action>): Sys
    decreases |actions|
  {
    if actions == [] then s else Exec(cfg, Apply(cfg, s, actions[0]), actions[1..])
  }

  /** The effects that stand: an undone step must be the last one standing. */
  function Standing(changes: seq<Change>): Option<seq<int>> {
    if changes == [] then Some([])
    else
      var before := Standing(changes[..|changes| - 1]);
      var last := changes[|changes| - 1];
      if before.None? then None
      else match last
        case Did(v) => Some(before.value + [v])
        case Undid(v) =>
          if before.value != [] && before.value[|before.value| - 1] == v then Some(before.value[..|before.value| - 1])
          else None
  }

  function VersionList(steps: seq<Step>): seq<int> {
    seq(|steps|, i requires 0 <= i < |steps| => steps[i].version)
  }

  /** The records are those of the first n steps, and exactly these steps' effects stand, each once and in order. */
  predicate Consistent(cfg: Config, db: Db) {
    && IsPrefixOf(db.records, cfg.steps)
    && Standing(db.changes) == Some(VersionList(cfg.steps[..|db.records|]))
  }

  predicate Init(cfg: Config, s: Sys) {
    ValidList(cfg.steps) && Consistent(cfg, s.db) && s.instances == map[]
  }

  // ---------- what an instance reads ----------

  lemma PrefixIsSorted(records: seq<Record>, steps: seq<Step>)
    requires ValidList(steps) && IsPrefixOf(records, steps)
    ensures Sorted(records) && DistinctVersions(records)
  {
  }

  lemma {:induction false} SortingSorted(records: seq<Record>)
    requires Sorted(records)
    ensures SortByVersion(records) == records
    decreases |records|
  {
    if records != [] {
      SortingSorted(records[1..]);
    }
  }

  /** Reading a prefix finds no conflict; what is pending are the steps after it. */
  lemma ReadingAPrefix(records: seq<Record>, steps: seq<Step>)
    requires ValidList(steps) && IsPrefixOf(records, steps)
    ensures StatusOf(records, steps) == Status(records, steps[|records|..], [])
  {
    PrefixIsSorted(records, steps);
    SortingSorted(records);
    NoConflictExactlyForPrefixes(records, steps);
  }

  lemma NextVersion(records: seq<Record>, steps: seq<Step>, k: nat)
    requires ValidList(steps) && IsPrefixOf(records, steps) && k < |steps|
    ensures steps[k].version in VersionsOf(records) <==> k < |records|
    ensures FindStep(steps, steps[k].version) == Some(steps[k])
  {
    FindStepFinds(steps, steps[k].version);
    if k < |records| {
      RecordedVersion(records, k);
    }
  }

  lemma RecordedVersion(records: seq<Record>, k: nat)
    requires k < |records|
    ensures records[k].version in VersionsOf(records)
  {
  }

  /** Committing the step after the prefix makes a prefix one longer. */
  lemma CommitExtends(cfg: Config, db: Db, now: Instant, durationMs: int)
    requires ValidList(cfg.steps) && Consistent(cfg, db) && |db.records| < |cfg.steps|
    ensures var (after, done) := CommitStep(db, cfg.steps[|db.records|], now, durationMs);
            done && Consistent(cfg, after) && |after.records| == |db.records| + 1
  {
    var n := |db.records|;
    var after := CommitStep(db, cfg.steps[n], now, durationMs).0;
    NextVersion(db.records, cfg.steps, n);
    assert after.changes[..|db.changes|] == db.changes;
    assert cfg.steps[..n + 1] == cfg.steps[..n] + [cfg.steps[n]];
    assert VersionList(cfg.steps[..n + 1]) == VersionList(cfg.steps[..n]) + [cfg.steps[n].version];
  }

  // ---------- only `up`: no lock needed ----------

  /** The plan is a tail of the list that starts at or before the first unrecorded step. */
  predicate IsTail(cfg: Config, db: Db, plan: seq<Step>) {
    |plan| <= |cfg.steps| && |cfg.steps| - |plan| <= |db.records| && plan == cfg.steps[|cfg.steps| - |plan|..]
  }

  predicate UpOk(cfg: Config, db: Db, pc: Pc) {
    match pc
    case Begin(kind) => kind.Up?
    case Acquiring(kind, _) => kind.Up?
    case Reading(kind) => kind.Up?
    case NextUp(plan, _) => IsTail(cfg, db, plan)
    case CommitUp(plan, _) => IsTail(cfg, db, plan) && plan != []
    case RenewDown(_) => false
    case CommitDown(_) => false
    case Releasing(answer) => !answer.Undone? && answer != Failed(Conflicting)
    case Over(answer) => !answer.Undone? && answer != Failed(Conflicting)
  }

  predicate UpInv(cfg: Config, s: Sys) {
    && ValidList(cfg.steps) && Consistent(cfg, s.db)
    && forall o :: o in s.instances ==> UpOk(cfg, s.db, s.instances[o].pc)
  }

  /** The database after a step, and where the step leaves its instance. */
  predicate UpKeeps(cfg: Config, db: Db, after: Db, pc: Pc) {
    && Consistent(cfg, after) && |db.records| <= |after.records| && UpOk(cfg, after, pc)
    && db.changes <= after.changes && forall k :: |db.changes| <= k < |after.changes| ==> after.changes[k].Did?
  }

  predicate UpStepIsFine(cfg: Config, o: Owner, db: Db, now: Instant, i: Instance, fails: bool, durationMs: int) {
    var (after, next) := InstanceStep(cfg, o, db, now, i, fails, durationMs);
    UpKeeps(cfg, db, after, next.pc)
  }

  lemma OnlyTheLockMoved(cfg: Config, db: Db, after: Db, pc: Pc)
    requires Consistent(cfg, db) && after == db.(lock := after.lock) && UpOk(cfg, db, pc)
    ensures UpKeeps(cfg, db, after, pc)
  {
  }

  lemma UpNextStep(cfg: Config, o: Owner, db: Db, now: Instant, i: Instance, fails: bool, durationMs: int)
    requires ValidList(cfg.steps) && Consistent(cfg, db) && UpOk(cfg, db, i.pc) && i.pc.NextUp?
    ensures UpStepIsFine(cfg, o, db, now, i, fails, durationMs)
  {
    if i.pc.plan != [] {
      NextVersion(db.records, cfg.steps, |cfg.steps| - |i.pc.plan|);
    }
    var (after, next) := InstanceStep(cfg, o, db, now, i, fails, durationMs);
    OnlyTheLockMoved(cfg, db, after, next.pc);
  }

  lemma CommitKeeps(cfg: Config, db: Db, now: Instant, durationMs: int, applied: seq<Record>)
    requires ValidList(cfg.steps) && Consistent(cfg, db) && |db.records| < |cfg.steps|
    ensures var n := |db.records|;
            UpKeeps(cfg, db, CommitStep(db, cfg.steps[n], now, durationMs).0, NextUp(cfg.steps[n..][1..], applied))
  {
    CommitExtends(cfg, db, now, durationMs);
  }

  lemma UpCommitStep(cfg: Config, o: Owner, db: Db, now: Instant, i: Instance, fails: bool, durationMs: int)
    requires ValidList(cfg.steps) && Consistent(cfg, db) && UpOk(cfg, db, i.pc) && i.pc.CommitUp?
    ensures UpStepIsFine(cfg, o, db, now, i, fails, durationMs)
  {
    var k := |cfg.steps| - |i.pc.plan|;
    var (after, next) := InstanceStep(cfg, o, db, now, i, fails, durationMs);
    NextVersion(db.records, cfg.steps, k);
    if !fails && k == |db.records| {
      CommitExtends(cfg, db, now, durationMs);
      CommitKeeps(cfg, db, now, durationMs, next.pc.applied);
    } else {
      OnlyTheLockMoved(cfg, db, after, next.pc);
    }
  }

  lemma UpReadStep(cfg: Config, o: Owner, db: Db, now: Instant, i: Instance, fails: bool, durationMs: int)
    requires ValidList(cfg.steps) && Consistent(cfg, db) && UpOk(cfg, db, i.pc) && (i.pc.Begin? || i.pc.Reading?)
    ensures UpStepIsFine(cfg, o, db, now, i, fails, durationMs)
  {
    ReadingAPrefix(db.records, cfg.steps);
  }

  lemma UpOtherStep(cfg: Config, o: Owner, db: Db, now: Instant, i: Instance, fails: bool, durationMs: int)
    requires Consistent(cfg, db) && UpOk(cfg, db, i.pc)
    requires i.pc.Acquiring? || i.pc.Releasing? || i.pc.Over?
    ensures UpStepIsFine(cfg, o, db, now, i, fails, durationMs)
  {
  }

  lemma UpStep(cfg: Config, o: Owner, db: Db, now: Instant, i: Instance, fails: bool, durationMs: int)
    requires ValidList(cfg.steps) && Consistent(cfg, db) && UpOk(cfg, db, i.pc)
    ensures UpStepIsFine(cfg, o, db, now, i, fails, durationMs)
  {
    if i.pc.NextUp? {
      UpNextStep(cfg, o, db, now, i, fails, durationMs);
    } else if i.pc.CommitUp? {
      UpCommitStep(cfg, o, db, now, i, fails, durationMs);
    } else if i.pc.Begin? || i.pc.Reading? {
      UpReadStep(cfg, o, db, now, i, fails, durationMs);
    } else {
      UpOtherStep(cfg, o, db, now, i, fails, durationMs);
    }
  }

  predicate OnlyUps(actions: seq<Action>) {
    forall i :: 0 <= i < |actions| && actions[i].Start? ==> actions[i].kind.Up?
  }

  predicate NothingUndone(changes: seq<Change>) {
    forall i :: 0 <= i < |changes| ==> changes[i].Did?
  }

  /** What others planned still fits when records were only added. */
  lemma OthersStayUp(cfg: Config, db: Db, after: Db, pc: Pc)
    requires UpOk(cfg, db, pc) && |db.records| <= |after.records|
    ensures UpOk(cfg, after, pc)
  {
  }

  lemma UpActionKeepsInv(cfg: Config, s: Sys, a: Action)
    requires UpInv(cfg, s) && NothingUndone(s.db.changes) && (a.Start? ==> a.kind.Up?)
    ensures UpInv(cfg, Apply(cfg, s, a)) && NothingUndone(Apply(cfg, s, a).db.changes)
  {
    if a.Act? && a.owner in s.instances {
      UpStep(cfg, a.owner, s.db, s.now, s.instances[a.owner], a.fails, a.durationMs);
      var (after, next) := InstanceStep(cfg, a.owner, s.db, s.now, s.instances[a.owner], a.fails, a.durationMs);
      SteppedKeepsUpInv(cfg, s, a.owner, after, next);
    }
  }

  lemma SteppedKeepsUpInv(cfg: Config, s: Sys, o: Owner, after: Db, next: Instance)
    requires UpInv(cfg, s) && NothingUndone(s.db.changes)
    requires Consistent(cfg, after) && |s.db.records| <= |after.records| && UpOk(cfg, after, next.pc)
    requires s.db.changes <= after.changes && forall k :: |s.db.changes| <= k < |after.changes| ==>
             after.changes[k].Did?
    ensures UpInv(cfg, s.(db := after, instances := s.instances[o := next])) && NothingUndone(after.changes)
  {
    forall p | p in s.instances
      ensures UpOk(cfg, after, s.instances[p].pc)
    {
      OthersStayUp(cfg, s.db, after, s.instances[p].pc);
    }
    forall i | 0 <= i < |after.changes|
      ensures after.changes[i].Did?
    {
      if i < |s.db.changes| {
        assert after.changes[i] == s.db.changes[i];
      }
    }
  }

  lemma {:induction false} UpRunKeepsInv(cfg: Config, s: Sys, actions: seq<Action>)
    requires UpInv(cfg, s) && NothingUndone(s.db.changes) && OnlyUps(actions)
    ensures UpInv(cfg, Exec(cfg, s, actions)) && NothingUndone(Exec(cfg, s, actions).db.changes)
    decreases |actions|
  {
    if actions != [] {
      UpActionKeepsInv(cfg, s, actions[0]);
      UpRunKeepsInv(cfg, Apply(cfg, s, actions[0]), actions[1..]);
    }
  }

  lemma {:induction false} StandingOfDone(changes: seq<Change>)
    requires NothingUndone(changes)
    ensures Standing(changes).Some? && |Standing(changes).value| == |changes|
    ensures forall i :: 0 <= i < |changes| ==> Standing(changes).value[i] == changes[i].version
    decreases |changes|
  {
    if changes != [] {
      var n := |changes| - 1;
      StandingOfDone(changes[..n]);
      assert forall i :: 0 <= i < n ==> changes[..n][i] == changes[i];
    }
  }

  /**
   * Any number of instances running `up`, with any lock loss, stall or crash: the records are those of a prefix of
   * the list, in order, and each of its steps' effects was committed exactly once, in order, and no other.
   */
  lemma UpAppliesEachStepOnce(cfg: Config, s: Sys, actions: seq<Action>)
    requires Init(cfg, s) && NothingUndone(s.db.changes) && OnlyUps(actions)
    ensures var t := Exec(cfg, s, actions);
            && IsPrefixOf(t.db.records, cfg.steps)
            && |t.db.changes| == |t.db.records|
            && forall i :: 0 <= i < |t.db.changes| ==> t.db.changes[i] == Did(cfg.steps[i].version)
  {
    UpRunKeepsInv(cfg, s, actions);
    var t := Exec(cfg, s, actions);
    StandingOfDone(t.db.changes);
    var versions := VersionList(cfg.steps[..|t.db.records|]);
    assert Standing(t.db.changes).value == versions;
    assert forall i :: 0 <= i < |versions| ==> versions[i] == cfg.steps[i].version;
  }

  /** In such runs no instance ever stops over a conflict. */
  lemma UpNeverFindsAConflict(cfg: Config, s: Sys, actions: seq<Action>, o: Owner)
    requires Init(cfg, s) && NothingUndone(s.db.changes) && OnlyUps(actions)
    ensures var t := Exec(cfg, s, actions);
            o in t.instances ==> t.instances[o].pc != Over(Failed(Conflicting))
  {
    UpRunKeepsInv(cfg, s, actions);
  }

  // ---------- the lock ----------

  /** Until the moment its last write named, the lock document is the instance's. */
  predicate LeaseOk(s: Sys, o: Owner) {
    o in s.instances && s.instances[o].lease.Some? && s.now < s.instances[o].lease.value ==>
      s.db.lock.Some? && s.db.lock.value.owner == o && s.db.lock.value.expiresAt == s.instances[o].lease.value
  }

  predicate LeasesOk(s: Sys) {
    forall o :: o in s.instances ==> LeaseOk(s, o)
  }

  lemma ActKeepsLease(cfg: Config, s: Sys, a: Action, o: Owner)
    requires a.Act? && a.owner in s.instances && o in s.instances && LeaseOk(s, o) && LeaseOk(s, a.owner)
    ensures LeaseOk(Apply(cfg, s, a), o)
  {
  }

  lemma QuietActionKeepsLease(cfg: Config, s: Sys, a: Action, o: Owner)
    requires !(a.Act? && a.owner in s.instances) && o in Apply(cfg, s, a).instances
             && (o in s.instances ==> LeaseOk(s, o))
    ensures LeaseOk(Apply(cfg, s, a), o)
  {
  }

  lemma ActionKeepsLeases(cfg: Config, s: Sys, a: Action)
    requires LeasesOk(s)
    ensures LeasesOk(Apply(cfg, s, a))
  {
    var t := Apply(cfg, s, a);
    forall o | o in t.instances
      ensures LeaseOk(t, o)
    {
      if a.Act? && a.owner in s.instances {
        ActKeepsLease(cfg, s, a, o);
      } else {
        QuietActionKeepsLease(cfg, s, a, o);
      }
    }
  }

  lemma {:induction false} RunKeepsLeases(cfg: Config, s: Sys, actions: seq<Action>)
    requires LeasesOk(s)
    ensures LeasesOk(Exec(cfg, s, actions))
    decreases |actions|
  {
    if actions != [] {
      ActionKeepsLeases(cfg, s, actions[0]);
      RunKeepsLeases(cfg, Apply(cfg, s, actions[0]), actions[1..]);
    }
  }

  /** In every run, two instances never both hold the lock by what they know of it. */
  lemma LeasesExcludeEachOther(cfg: Config, s: Sys, actions: seq<Action>, o: Owner, p: Owner)
    requires Init(cfg, s)
    requires var t := Exec(cfg, s, actions);
             && o in t.instances && t.instances[o].lease.Some? && t.now < t.instances[o].lease.value
             && p in t.instances && t.instances[p].lease.Some? && t.now < t.instances[p].lease.value
    ensures o == p
  {
    RunKeepsLeases(cfg, s, actions);
    var t := Exec(cfg, s, actions);
    assert LeaseOk(t, o) && LeaseOk(t, p);
  }

  // ---------- `up` and `down` under the lock ----------

  /** What the owner of the lock document planned still fits the records. */
  predicate HolderOk(cfg: Config, db: Db, pc: Pc) {
    match pc
    case NextUp(plan, _) => |db.records| <= |cfg.steps| && plan == cfg.steps[|db.records|..]
    case CommitUp(plan, _) => |db.records| <= |cfg.steps| && plan == cfg.steps[|db.records|..] && plan != []
    case RenewDown(record) => db.records != [] && record == db.records[|db.records| - 1]
    case CommitDown(record) => db.records != [] && record == db.records[|db.records| - 1]
    case _ => true
  }

  predicate Owns(db: Db, o: Owner) {
    db.lock.Some? && db.lock.value.owner == o
  }

  predicate LockedInv(cfg: Config, s: Sys) {
    && ValidList(cfg.steps) && Consistent(cfg, s.db)
    && forall o :: o in s.instances && Owns(s.db, o) ==> HolderOk(cfg, s.db, s.instances[o].pc)
  }

  /** The instance acting commits, and has stalled past the life of its lock. */
  predicate CommitsLate(s: Sys, a: Action) {
    && a.Act? && a.owner in s.instances && !a.fails
    && (s.instances[a.owner].pc.CommitUp? || s.instances[a.owner].pc.CommitDown?)
    && !(s.instances[a.owner].lease.Some? && s.now < s.instances[a.owner].lease.value)
  }

  predicate NoLateCommit(cfg: Config, s: Sys, actions: seq<Action>)
    decreases |actions|
  {
    actions != [] ==> !CommitsLate(s, actions[0]) && NoLateCommit(cfg, Apply(cfg, s, actions[0]), actions[1..])
  }

  lemma {:induction false} WithoutLast(records: seq<Record>)
    requires records != [] && DistinctVersions(records)
    ensures Without(records, records[|records| - 1].version) == records[..|records| - 1]
    decreases |records|
  {
    if |records| > 1 {
      WithoutLast(records[1..]);
      assert records[..|records| - 1] == [records[0]] + records[1..][..|records| - 2];
    }
  }

  /** Undoing the last step makes the prefix one shorter. */
  lemma UndoShortens(cfg: Config, db: Db)
    requires ValidList(cfg.steps) && Consistent(cfg, db) && db.records != []
    ensures var v := db.records[|db.records| - 1].version;
            Consistent(cfg, db.(records := Without(db.records, v), changes := db.changes + [Undid(v)]))
  {
    var n := |db.records| - 1;
    var v := db.records[n].version;
    PrefixIsSorted(db.records, cfg.steps);
    WithoutLast(db.records);
    var changes := db.changes + [Undid(v)];
    assert changes[..|db.changes|] == db.changes;
    assert VersionList(cfg.steps[..n + 1])[..n] == VersionList(cfg.steps[..n]);
    assert VersionList(cfg.steps[..n + 1])[n] == v;
  }

  predicate LockedStepIsFine(cfg: Config, o: Owner, db: Db, now: Instant, i: Instance, fails: bool, durationMs: int) {
    var (after, next) := InstanceStep(cfg, o, db, now, i, fails, durationMs);
    && Consistent(cfg, after)
    && (Owns(after, o) ==> HolderOk(cfg, after, next.pc))
    && (after.records == db.records || Owns(after, o))
    && (after.lock != db.lock ==> after.lock.None? || Owns(after, o))
  }

  lemma LockedCommit(cfg: Config, o: Owner, db: Db, now: Instant, i: Instance, durationMs: int)
    requires ValidList(cfg.steps) && Consistent(cfg, db) && Owns(db, o) && HolderOk(cfg, db, i.pc)
    requires i.pc.CommitUp? || i.pc.CommitDown?
    ensures LockedStepIsFine(cfg, o, db, now, i, false, durationMs)
  {
    if i.pc.CommitUp? {
      NextVersion(db.records, cfg.steps, |db.records|);
      CommitExtends(cfg, db, now, durationMs);
    } else {
      UndoShortens(cfg, db);
    }
  }

  /** After reading a prefix, an instance goes on with the steps after it, or with its last record. */
  lemma HolderReads(cfg: Config, db: Db, kind: Kind)
    requires ValidList(cfg.steps) && Consistent(cfg, db)
    ensures HolderOk(cfg, db, AfterReading(cfg, db, kind))
  {
    ReadingAPrefix(db.records, cfg.steps);
  }

  lemma LockedRead(cfg: Config, o: Owner, db: Db, now: Instant, i: Instance, fails: bool, durationMs: int)
    requires ValidList(cfg.steps) && Consistent(cfg, db) && i.pc.Reading?
    ensures LockedStepIsFine(cfg, o, db, now, i, fails, durationMs)
  {
    HolderReads(cfg, db, i.pc.kind);
  }

  lemma LockedNext(cfg: Config, o: Owner, db: Db, now: Instant, i: Instance, fails: bool, durationMs: int)
    requires ValidList(cfg.steps) && Consistent(cfg, db) && (Owns(db, o) ==> HolderOk(cfg, db, i.pc))
    requires i.pc.NextUp?
    ensures LockedStepIsFine(cfg, o, db, now, i, fails, durationMs)
  {
    if i.pc.plan != [] && Owns(db, o) {
      NextVersion(db.records, cfg.steps, |db.records|);
    }
  }

  lemma LockedOther(cfg: Config, o: Owner, db: Db, now: Instant, i: Instance, fails: bool, durationMs: int)
    requires Consistent(cfg, db) && (Owns(db, o) ==> HolderOk(cfg, db, i.pc))
    requires !i.pc.Reading? && !i.pc.NextUp? && (i.pc.CommitUp? || i.pc.CommitDown? ==> fails)
    ensures LockedStepIsFine(cfg, o, db, now, i, fails, durationMs)
  {
  }

  lemma LockedStep(cfg: Config, o: Owner, db: Db, now: Instant, i: Instance, fails: bool, durationMs: int)
    requires ValidList(cfg.steps) && Consistent(cfg, db)
    requires Owns(db, o) ==> HolderOk(cfg, db, i.pc)
    requires !fails && (i.pc.CommitUp? || i.pc.CommitDown?) ==> Owns(db, o)
    ensures LockedStepIsFine(cfg, o, db, now, i, fails, durationMs)
  {
    if !fails && (i.pc.CommitUp? || i.pc.CommitDown?) {
      LockedCommit(cfg, o, db, now, i, durationMs);
    } else if i.pc.Reading? {
      LockedRead(cfg, o, db, now, i, fails, durationMs);
    } else if i.pc.NextUp? {
      LockedNext(cfg, o, db, now, i, fails, durationMs);
    } else {
      LockedOther(cfg, o, db, now, i, fails, durationMs);
    }
  }

  lemma LockedActionKeepsInv(cfg: Config, s: Sys, a: Action)
    requires LockedInv(cfg, s) && LeasesOk(s) && !CommitsLate(s, a)
    ensures LockedInv(cfg, Apply(cfg, s, a))
  {
    if a.Act? && a.owner in s.instances {
      assert LeaseOk(s, a.owner);
      LockedStep(cfg, a.owner, s.db, s.now, s.instances[a.owner], a.fails, a.durationMs);
    }
  }

  lemma {:induction false} LockedRunKeepsInv(cfg: Config, s: Sys, actions: seq<Action>)
    requires LockedInv(cfg, s) && LeasesOk(s) && NoLateCommit(cfg, s, actions)
    ensures LockedInv(cfg, Exec(cfg, s, actions))
    decreases |actions|
  {
    if actions != [] {
      LockedActionKeepsInv(cfg, s, actions[0]);
      ActionKeepsLeases(cfg, s, actions[0]);
      LockedRunKeepsInv(cfg, Apply(cfg, s, actions[0]), actions[1..]);
    }
  }

  /**
   * With `down` as well: while no instance commits after the life of its lock, the records stay a prefix of the
   * list and exactly its steps' effects stand, however instances interleave and crash.
   */
  lemma UpAndDownKeepAPrefix(cfg: Config, s: Sys, actions: seq<Action>)
    requires Init(cfg, s) && NoLateCommit(cfg, s, actions)
    ensures Consistent(cfg, Exec(cfg, s, actions).db)
  {
    LockedRunKeepsInv(cfg, s, actions);
  }
}
