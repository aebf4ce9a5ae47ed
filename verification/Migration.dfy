/** Versioned migrations and how the recorded ones compare with the code. */
module Migration {
  import opened Common

  const MAX_SAFE_INTEGER := 0x1F_FFFF_FFFF_FFFF

  datatype Step = Step(version: int, name: string)

  datatype Record = Record(version: int, name: string, appliedAt: Instant, durationMs: int)

  datatype Problem = BadVersion(version: int, previous: int) | BadName(version: int, name: string)

  datatype Conflict =
    | Unknown(version: int, name: string)
    | Renamed(version: int, recorded: string, coded: string)
    | OutOfOrder(version: int, name: string, latest: int)

  datatype Status = Status(applied: seq<Record>, pending: seq<Step>, conflicts: seq<Conflict>)

  // ---------- the list in the code ----------

  /** The characters JavaScript's trim removes. */
  predicate IsSpace(c: char) {
    var code := c as int;
    || 9 <= code <= 13 || code == 32 || code == 160 || code == 0x1680 || 0x2000 <= code <= 0x200a
    || code == 0x2028 || code == 0x2029 || code == 0x202f || code == 0x205f || code == 0x3000 || code == 0xfeff
  }

  predicate IsBlank(name: string) {
    forall i :: 0 <= i < |name| ==> IsSpace(name[i])
  }

  /** Versions are ascending positive integers a double holds exactly, names are filled and unique. */
  predicate ValidList(steps: seq<Step>) {
    && (forall i :: 0 <= i < |steps| ==> 0 < steps[i].version <= MAX_SAFE_INTEGER && !IsBlank(steps[i].name))
    && (forall i, j :: 0 <= i < j < |steps| ==> steps[i].version < steps[j].version && steps[i].name != steps[j].name)
  }

  predicate IsSafeInteger(version: int) {
    -MAX_SAFE_INTEGER <= version <= MAX_SAFE_INTEGER
  }

  /** What is wrong with a step after a valid list. */
  function ProblemAfter(before: seq<Step>, step: Step): Option<Problem> {
    var previous := if before == [] then 0 else before[|before| - 1].version;
    if !IsSafeInteger(step.version) || step.version <= previous then Some(BadVersion(step.version, previous))
    else if IsBlank(step.name) || (exists i :: 0 <= i < |before| && before[i].name == step.name)
    then Some(BadName(step.version, step.name))
    else None
  }

  lemma ValidWithOneMore(before: seq<Step>, step: Step)
    requires ValidList(before)
    ensures ValidList(before + [step]) <==> ProblemAfter(before, step).None?
  {
    var all := before + [step];
    assert forall i :: 0 <= i < |before| ==> all[i] == before[i];
    assert all[|before|] == step;
    if before != [] {
      assert all[|before| - 1] == before[|before| - 1];
      assert forall i :: 0 <= i < |before| ==> before[i].version <= before[|before| - 1].version;
    }
  }

  predicate NamesAre(names: set<string>, steps: seq<Step>) {
    && (forall i :: 0 <= i < |steps| ==> steps[i].name in names)
    && forall n :: n in names ==> exists i :: 0 <= i < |steps| && steps[i].name == n
  }

  lemma NamesWithOneMore(names: set<string>, before: seq<Step>, step: Step)
    requires NamesAre(names, before)
    ensures NamesAre(names + {step.name}, before + [step])
    ensures step.name in names <==> exists i :: 0 <= i < |before| && before[i].name == step.name
  {
    var all := before + [step];
    forall n | n in names + {step.name}
      ensures exists i :: 0 <= i < |all| && all[i].name == n
    {
      if n in names {
        var i :| 0 <= i < |before| && before[i].name == n;
        assert all[i].name == n;
      } else {
        assert all[|before|].name == n;
      }
    }
  }

  /** What the loop knows of the steps before. */
  predicate IsChecked(before: seq<Step>, previous: int, names: set<string>) {
    && ValidList(before) && NamesAre(names, before)
    && previous == if before == [] then 0 else before[|before| - 1].version
  }

  lemma OneMoreChecked(before: seq<Step>, step: Step, previous: int, names: set<string>)
    requires IsChecked(before, previous, names)
    ensures ProblemAfter(before, step).None? <==> ValidList(before + [step])
    ensures ProblemAfter(before, step).None? ==> IsChecked(before + [step], step.version, names + {step.name})
    ensures ProblemAfter(before, step)
         == if !IsSafeInteger(step.version) || step.version <= previous then Some(BadVersion(step.version, previous))
            else if IsBlank(step.name) || step.name in names then Some(BadName(step.version, step.name)) else None
  {
    NamesWithOneMore(names, before, step);
    ValidWithOneMore(before, step);
  }

  /** Accepts exactly the valid lists; otherwise names the first step that breaks a rule. */
  method AssertMigrationList(steps: seq<Step>) returns (problem: Option<Problem>)
    ensures problem.None? <==> ValidList(steps)
    ensures problem.Some? ==>
              exists i :: 0 <= i < |steps| && ValidList(steps[..i]) && problem == ProblemAfter(steps[..i], steps[i])
  {
    var names: set<string> := {};
    var previous := 0;
    var i := 0;
    while i < |steps|
      invariant 0 <= i <= |steps|
      invariant IsChecked(steps[..i], previous, names)
    {
      var step := steps[i];
      ghost var before := steps[..i];
      assert before + [step] == steps[..i + 1];
      OneMoreChecked(before, step, previous, names);
      problem := Check(step, previous, names);
      if problem.Some? {
        InvalidPart(steps, i + 1);
        return;
      }
      names := names + {step.name};
      previous := step.version;
      i := i + 1;
    }
    assert steps[..i] == steps;
    return None;
  }

  /** The two checks of one turn of the loop. */
  method Check(step: Step, previous: int, names: set<string>) returns (problem: Option<Problem>)
    ensures problem == if !IsSafeInteger(step.version) || step.version <= previous
            then Some(BadVersion(step.version, previous))
                       else if IsBlank(step.name) || step.name in names then Some(BadName(step.version, step.name))
                       else None
  {
    if !IsSafeInteger(step.version) || step.version <= previous {
      return Some(BadVersion(step.version, previous));
    }
    if IsBlank(step.name) || step.name in names {
      return Some(BadName(step.version, step.name));
    }
    return None;
  }

  lemma InvalidPart(steps: seq<Step>, n: nat)
    requires n <= |steps| && !ValidList(steps[..n])
    ensures !ValidList(steps)
  {
    if ValidList(steps) {
      assert false;
    }
  }

  // ---------- records against code ----------

  predicate Sorted(records: seq<Record>) {
    forall i, j :: 0 <= i < j < |records| ==> records[i].version <= records[j].version
  }

  predicate DistinctVersions(records: seq<Record>) {
    forall i, j :: 0 <= i < j < |records| ==> records[i].version != records[j].version
  }

  function InsertSorted(r: Record, sorted: seq<Record>): seq<Record> {
    if sorted == [] || r.version <= sorted[0].version then [r] + sorted
    else [sorted[0]] + InsertSorted(r, sorted[1..])
  }

  /** The records in version order; records of one version keep their order. */
  function SortByVersion(records: seq<Record>): seq<Record> {
    if records == [] then [] else InsertSorted(records[0], SortByVersion(records[1..]))
  }

  lemma {:induction false} InsertKeepsRecords(r: Record, sorted: seq<Record>)
    ensures multiset(InsertSorted(r, sorted)) == multiset{r} + multiset(sorted)
    decreases |sorted|
  {
    if !(sorted == [] || r.version <= sorted[0].version) {
      InsertKeepsRecords(r, sorted[1..]);
      assert sorted == [sorted[0]] + sorted[1..];
    }
  }

  lemma {:induction false} InsertSortedIsSorted(r: Record, sorted: seq<Record>)
    requires Sorted(sorted)
    ensures Sorted(InsertSorted(r, sorted))
    ensures InsertSorted(r, sorted)[0].version == if sorted == [] then r.version else Min(r.version, sorted[0].version)
    decreases |sorted|
  {
    if !(sorted == [] || r.version <= sorted[0].version) {
      InsertSortedIsSorted(r, sorted[1..]);
    }
  }

  lemma {:induction false} SortSorts(records: seq<Record>)
    ensures Sorted(SortByVersion(records)) && multiset(SortByVersion(records)) == multiset(records)
    decreases |records|
  {
    if records != [] {
      SortSorts(records[1..]);
      InsertSortedIsSorted(records[0], SortByVersion(records[1..]));
      InsertKeepsRecords(records[0], SortByVersion(records[1..]));
      assert records == [records[0]] + records[1..];
    }
  }

  /** The step of a version; of several, the last. */
  function FindStep(steps: seq<Step>, version: int): Option<Step> {
    if steps == [] then None
    else if steps[|steps| - 1].version == version then Some(steps[|steps| - 1])
    else FindStep(steps[..|steps| - 1], version)
  }

  function RecordConflict(r: Record, steps: seq<Step>): seq<Conflict> {
    match FindStep(steps, r.version)
    case None => [Unknown(r.version, r.name)]
    case Some(step) => if step.name != r.name then [Renamed(r.version, r.name, step.name)] else []
  }

  function RecordConflicts(applied: seq<Record>, steps: seq<Step>): seq<Conflict> {
    if applied == [] then [] else RecordConflict(applied[0], steps) + RecordConflicts(applied[1..], steps)
  }

  /** The newest applied version the code knows. */
  function LatestKnown(applied: seq<Record>, steps: seq<Step>): int {
    if applied == [] then 0
    else if FindStep(steps, applied[|applied| - 1].version).Some? then applied[|applied| - 1].version
    else LatestKnown(applied[..|applied| - 1], steps)
  }

  function VersionsOf(records: seq<Record>): set<int> {
    set i | 0 <= i < |records| :: records[i].version
  }

  function PendingSteps(steps: seq<Step>, applied: set<int>): seq<Step> {
    if steps == [] then []
    else (if steps[0].version in applied then [] else [steps[0]]) + PendingSteps(steps[1..], applied)
  }

  function OrderConflict(step: Step, latest: int): seq<Conflict> {
    if step.version < latest then [OutOfOrder(step.version, step.name, latest)] else []
  }

  function OrderConflicts(pending: seq<Step>, latest: int): seq<Conflict> {
    if pending == [] then []
    else OrderConflict(pending[0], latest) + OrderConflicts(pending[1..], latest)
  }

  function StatusOf(records: seq<Record>, steps: seq<Step>): Status {
    var applied := SortByVersion(records);
    var pending := PendingSteps(steps, VersionsOf(applied));
    Status(applied, pending, RecordConflicts(applied, steps) + OrderConflicts(pending, LatestKnown(applied, steps)))
  }

  method MigrationStatus(records: seq<Record>, steps: seq<Step>) returns (status: Status)
    ensures status == StatusOf(records, steps)
  {
    var applied := SortByVersion(records);
    var unknown := CollectRecordConflicts(applied, steps);
    var pending := PendingSteps(steps, VersionsOf(applied));
    var late := CollectOrderConflicts(pending, LatestKnown(applied, steps));
    status := Status(applied, pending, unknown + late);
  }

  method CollectRecordConflicts(applied: seq<Record>, steps: seq<Step>) returns (conflicts: seq<Conflict>)
    ensures conflicts == RecordConflicts(applied, steps)
  {
    conflicts := [];
    var i := 0;
    while i < |applied|
      invariant 0 <= i <= |applied|
      invariant conflicts == RecordConflicts(applied[..i], steps)
    {
      RecordConflictsOneMore(applied[..i], applied[i], steps);
      assert applied[..i + 1] == applied[..i] + [applied[i]];
      match FindStep(steps, applied[i].version) {
        case None => conflicts := conflicts + [Unknown(applied[i].version, applied[i].name)];
        case Some(step) =>
          if step.name != applied[i].name {
            conflicts := conflicts + [Renamed(applied[i].version, applied[i].name, step.name)];
          }
      }
      i := i + 1;
    }
    assert applied[..i] == applied;
  }

  method CollectOrderConflicts(pending: seq<Step>, latest: int) returns (conflicts: seq<Conflict>)
    ensures conflicts == OrderConflicts(pending, latest)
  {
    conflicts := [];
    var i := 0;
    while i < |pending|
      invariant 0 <= i <= |pending|
      invariant conflicts == OrderConflicts(pending[..i], latest)
    {
      OrderConflictsOneMore(pending[..i], pending[i], latest);
      assert pending[..i + 1] == pending[..i] + [pending[i]];
      if pending[i].version < latest {
        conflicts := conflicts + [OutOfOrder(pending[i].version, pending[i].name, latest)];
      }
      i := i + 1;
    }
    assert pending[..i] == pending;
  }

  lemma {:induction false} RecordConflictsOneMore(before: seq<Record>, r: Record, steps: seq<Step>)
    ensures RecordConflicts(before + [r], steps) == RecordConflicts(before, steps) + RecordConflict(r, steps)
    decreases |before|
  {
    if before == [] {
      assert before + [r] == [r] && [r][1..] == [];
    } else {
      RecordConflictsOneMore(before[1..], r, steps);
      assert (before + [r])[1..] == before[1..] + [r];
    }
  }

  lemma {:induction false} OrderConflictsOneMore(before: seq<Step>, step: Step, latest: int)
    ensures OrderConflicts(before + [step], latest) == OrderConflicts(before, latest) + OrderConflict(step, latest)
    decreases |before|
  {
    if before == [] {
      assert before + [step] == [step] && [step][1..] == [];
    } else {
      OrderConflictsOneMore(before[1..], step, latest);
      assert (before + [step])[1..] == before[1..] + [step];
    }
  }

  // ---------- no conflict means: a prefix of the list is applied ----------

  predicate Records(r: Record, step: Step) {
    r.version == step.version && r.name == step.name
  }

  /** The records, in order, are those of the first steps. */
  predicate IsPrefixOf(applied: seq<Record>, steps: seq<Step>) {
    |applied| <= |steps| && forall i :: 0 <= i < |applied| ==> Records(applied[i], steps[i])
  }

  lemma {:induction false} FindStepFinds(steps: seq<Step>, version: int)
    ensures match FindStep(steps, version)
            case None => forall i :: 0 <= i < |steps| ==> steps[i].version != version
            case Some(step) => exists i :: 0 <= i < |steps| && steps[i] == step && step.version == version
    decreases |steps|
  {
    if steps != [] && steps[|steps| - 1].version != version {
      FindStepFinds(steps[..|steps| - 1], version);
    }
  }

  lemma {:induction false} NoRecordConflicts(applied: seq<Record>, steps: seq<Step>)
    ensures RecordConflicts(applied, steps) == [] <==>
              forall i :: 0 <= i < |applied| ==> RecordConflict(applied[i], steps) == []
    decreases |applied|
  {
    if applied != [] {
      NoRecordConflicts(applied[1..], steps);
      assert forall i :: 0 <= i < |applied[1..]| ==> applied[1..][i] == applied[i + 1];
      assert forall i :: 1 <= i < |applied| ==> applied[i] == applied[1..][i - 1];
    }
  }

  lemma {:induction false} NoOrderConflicts(pending: seq<Step>, latest: int)
    ensures OrderConflicts(pending, latest) == [] <==>
              forall i :: 0 <= i < |pending| ==> pending[i].version >= latest
    decreases |pending|
  {
    if pending != [] {
      NoOrderConflicts(pending[1..], latest);
      assert forall i :: 0 <= i < |pending[1..]| ==> pending[1..][i] == pending[i + 1];
      assert forall i :: 1 <= i < |pending| ==> pending[i] == pending[1..][i - 1];
    }
  }

  lemma {:induction false} PendingIsTheUnapplied(steps: seq<Step>, applied: set<int>, step: Step)
    ensures step in PendingSteps(steps, applied) <==> step in steps && step.version !in applied
    decreases |steps|
  {
    if steps != [] {
      PendingIsTheUnapplied(steps[1..], applied, step);
      assert steps == [steps[0]] + steps[1..];
    }
  }

  lemma {:induction false} PendingAfterPrefix(steps: seq<Step>, applied: set<int>, n: nat)
    requires n <= |steps|
    requires forall i :: 0 <= i < |steps| ==> (steps[i].version in applied <==> i < n)
    ensures PendingSteps(steps, applied) == steps[n..]
    decreases |steps|
  {
    if steps != [] {
      PendingAfterPrefix(steps[1..], applied, if n == 0 then 0 else n - 1);
    }
  }

  /** A prefix of the list shows no conflict, and the rest of the list is pending. */
  lemma PrefixHasNoConflicts(applied: seq<Record>, steps: seq<Step>)
    requires ValidList(steps) && IsPrefixOf(applied, steps)
    ensures RecordConflicts(applied, steps) == []
    ensures PendingSteps(steps, VersionsOf(applied)) == steps[|applied|..]
    ensures OrderConflicts(PendingSteps(steps, VersionsOf(applied)), LatestKnown(applied, steps)) == []
  {
    forall i | 0 <= i < |applied|
      ensures RecordConflict(applied[i], steps) == []
    {
      FindStepFinds(steps, steps[i].version);
    }
    NoRecordConflicts(applied, steps);
    forall i | 0 <= i < |steps|
      ensures steps[i].version in VersionsOf(applied) <==> i < |applied|
    {
      if i < |applied| {
        assert applied[i].version in VersionsOf(applied);
      }
    }
    PendingAfterPrefix(steps, VersionsOf(applied), |applied|);
    NoOrderConflicts(steps[|applied|..], LatestKnown(applied, steps));
    if applied != [] {
      FindStepFinds(steps, applied[|applied| - 1].version);
    }
  }

  /** What is wrong with a step is its version, or else its name. */
  lemma ProblemsExactly(before: seq<Step>, step: Step)
    requires ValidList(before)
    ensures var p := ProblemAfter(before, step);
            var late := step.version > MAX_SAFE_INTEGER || step.version <= 0
                        || exists i :: 0 <= i < |before| && step.version <= before[i].version;
            && (p.Some? && p.value.BadVersion? <==> late)
            && (p.Some? && p.value.BadName?
                <==> !late && (IsBlank(step.name) || exists i :: 0 <= i < |before| && before[i].name == step.name))
            && (p.Some? ==> p.value.version == step.version)
  {
    if before != [] {
      var last := before[|before| - 1];
      assert forall i :: 0 <= i < |before| ==> before[i].version <= last.version;
    }
  }

  /** The conflict a record gives rise to, if any: its version is unknown to the code, or has another name there. */
  predicate IsRecordConflict(c: Conflict, records: seq<Record>, steps: seq<Step>) {
    match c
    case Unknown(version, name) =>
      && (exists i :: 0 <= i < |records| && records[i].version == version && records[i].name == name)
      && forall j :: 0 <= j < |steps| ==> steps[j].version != version
    case Renamed(version, recorded, coded) =>
      && recorded != coded
      && (exists i :: 0 <= i < |records| && records[i].version == version && records[i].name == recorded)
      && exists j :: 0 <= j < |steps| && steps[j].version == version && steps[j].name == coded
    case OutOfOrder(_, _, _) => false
  }

  lemma OneRecordConflict(c: Conflict, r: Record, steps: seq<Step>)
    requires ValidList(steps)
    ensures c in RecordConflict(r, steps) <==> IsRecordConflict(c, [r], steps)
  {
    FindStepFinds(steps, r.version);
    assert [r][0] == r;
    if FindStep(steps, r.version).Some? {
      var i :| 0 <= i < |steps| && steps[i] == FindStep(steps, r.version).value;
      assert forall j :: 0 <= j < |steps| && steps[j].version == r.version ==> j == i;
    }
  }

  /** The conflicts of the records are exactly these. */
  lemma {:induction false} RecordConflictsExactly(c: Conflict, records: seq<Record>, steps: seq<Step>)
    requires ValidList(steps)
    ensures c in RecordConflicts(records, steps) <==> IsRecordConflict(c, records, steps)
    decreases |records|
  {
    if records != [] {
      OneRecordConflict(c, records[0], steps);
      RecordConflictsExactly(c, records[1..], steps);
      ConflictOfTheRest(c, records, steps);
    }
  }

  lemma ConflictOfTheRest(c: Conflict, records: seq<Record>, steps: seq<Step>)
    requires records != []
    ensures IsRecordConflict(c, records, steps)
       <==> IsRecordConflict(c, [records[0]], steps) || IsRecordConflict(c, records[1..], steps)
  {
    assert [records[0]][0] == records[0];
    assert forall i :: 0 <= i < |records[1..]| ==> records[1..][i] == records[i + 1];
    assert forall i :: 1 <= i < |records| ==> records[i] == records[1..][i - 1];
  }

  /** The greatest recorded version the code knows; zero when it knows none. */
  predicate IsLatestKnown(latest: int, records: seq<Record>, steps: seq<Step>) {
    && (forall i, j :: 0 <= i < |records| && 0 <= j < |steps| && records[i].version == steps[j].version ==>
          records[i].version <= latest)
    && (latest == 0 || exists i, j ::
         0 <= i < |records| && 0 <= j < |steps| && records[i].version == steps[j].version == latest)
  }

  lemma {:induction false} LatestKnownIsGreatest(applied: seq<Record>, steps: seq<Step>)
    requires Sorted(applied)
    ensures IsLatestKnown(LatestKnown(applied, steps), applied, steps)
    decreases |applied|
  {
    if applied != [] {
      var init, last := applied[..|applied| - 1], applied[|applied| - 1];
      FindStepFinds(steps, last.version);
      if FindStep(steps, last.version).Some? {
        var j :| 0 <= j < |steps| && steps[j].version == last.version;
        assert applied[|applied| - 1].version == steps[j].version;
      } else {
        LatestKnownIsGreatest(init, steps);
      }
    }
  }

  lemma {:induction false} OrderConflictsExactly(c: Conflict, pending: seq<Step>, latest: int)
    ensures c in OrderConflicts(pending, latest)
       <==> c.OutOfOrder? && c.latest == latest && c.version < latest && Step(c.version, c.name) in pending
    decreases |pending|
  {
    if pending != [] {
      OrderConflictsExactly(c, pending[1..], latest);
      assert pending == [pending[0]] + pending[1..];
    }
  }

  /**
   * The status reports exactly these conflicts: records the code does not know or knows by another name, and steps
   * without a record that come before the latest recorded one.
   */
  lemma ConflictsExactly(c: Conflict, records: seq<Record>, steps: seq<Step>)
    returns (latest: int)
    requires ValidList(steps)
    ensures IsLatestKnown(latest, StatusOf(records, steps).applied, steps)
    ensures c in StatusOf(records, steps).conflicts
       <==> || IsRecordConflict(c, StatusOf(records, steps).applied, steps)
            || (&& c.OutOfOrder? && c.latest == latest && c.version < latest
                && Step(c.version, c.name) in steps
                && forall r :: r in StatusOf(records, steps).applied ==> r.version != c.version)
  {
    var applied := SortByVersion(records);
    SortSorts(records);
    latest := LatestKnown(applied, steps);
    LatestKnownIsGreatest(applied, steps);
    RecordConflictsExactly(c, applied, steps);
    OrderConflictsExactly(c, PendingSteps(steps, VersionsOf(applied)), latest);
    if c.OutOfOrder? {
      PendingIsTheUnapplied(steps, VersionsOf(applied), Step(c.version, c.name));
    }
  }

  lemma StepOfRecord(applied: seq<Record>, steps: seq<Step>, i: nat) returns (j: nat)
    requires i < |applied| && RecordConflicts(applied, steps) == []
    ensures j < |steps| && Records(applied[i], steps[j])
  {
    NoRecordConflicts(applied, steps);
    assert RecordConflict(applied[i], steps) == [];
    FindStepFinds(steps, applied[i].version);
    j :| 0 <= j < |steps| && Records(applied[i], steps[j]);
  }

  /** Without conflicts, the i-th record is that of the i-th step. */
  lemma {:induction false} ConflictFreeMatches(applied: seq<Record>, steps: seq<Step>, i: nat)
    requires ValidList(steps) && Sorted(applied) && DistinctVersions(applied) && i < |applied|
    requires RecordConflicts(applied, steps) == []
    requires OrderConflicts(PendingSteps(steps, VersionsOf(applied)), LatestKnown(applied, steps)) == []
    ensures i < |steps| && forall k :: 0 <= k <= i ==> Records(applied[k], steps[k])
    decreases i
  {
    if i > 0 {
      ConflictFreeMatches(applied, steps, i - 1);
    }
    var j := StepOfRecord(applied, steps, i);
    assert i > 0 ==> applied[i - 1].version < applied[i].version;
    if j < i {
      assert false;
    }
    if j > i {
      SkippedStepConflicts(applied, steps, i);
    }
  }

  /** A step passed over while a later one is applied is a conflict. */
  lemma SkippedStepConflicts(applied: seq<Record>, steps: seq<Step>, i: nat)
    requires ValidList(steps) && Sorted(applied) && i < |applied| && i < |steps|
    requires forall k :: 0 <= k < i ==> Records(applied[k], steps[k])
    requires steps[i].version < applied[i].version
    requires RecordConflicts(applied, steps) == []
    ensures OrderConflicts(PendingSteps(steps, VersionsOf(applied)), LatestKnown(applied, steps)) != []
  {
    var latest := LatestKnown(applied, steps);
    NoRecordConflicts(applied, steps);
    assert RecordConflict(applied[|applied| - 1], steps) == [];
    assert latest == applied[|applied| - 1].version >= applied[i].version;
    if steps[i].version in VersionsOf(applied) {
      assert false;
    }
    PendingIsTheUnapplied(steps, VersionsOf(applied), steps[i]);
    var pending := PendingSteps(steps, VersionsOf(applied));
    NoOrderConflicts(pending, latest);
    var p :| 0 <= p < |pending| && pending[p] == steps[i];
    assert pending[p].version < latest;
  }

  /**
   * The status reports no conflict exactly when the records are, in version order, those of a prefix of the list;
   * then the applied steps followed by the pending ones are the whole list.
   */
  lemma NoConflictExactlyForPrefixes(records: seq<Record>, steps: seq<Step>)
    requires ValidList(steps) && DistinctVersions(records)
    ensures var status := StatusOf(records, steps);
            && (status.conflicts == [] <==> IsPrefixOf(status.applied, steps))
            && (status.conflicts == [] ==> status.pending == steps[|status.applied|..])
  {
    var applied := SortByVersion(records);
    SortSorts(records);
    SortKeepsDistinct(records);
    var status := StatusOf(records, steps);
    assert status.conflicts == [] <==>
           RecordConflicts(applied, steps) == [] &&
           OrderConflicts(PendingSteps(steps, VersionsOf(applied)), LatestKnown(applied, steps)) == [];
    if IsPrefixOf(applied, steps) {
      PrefixHasNoConflicts(applied, steps);
    } else if status.conflicts == [] && applied != [] {
      ConflictFreeMatches(applied, steps, |applied| - 1);
    }
  }

  lemma {:induction false} InsertKeepsDistinct(r: Record, sorted: seq<Record>)
    requires Sorted(sorted) && DistinctVersions(sorted)
    requires forall i :: 0 <= i < |sorted| ==> sorted[i].version != r.version
    ensures DistinctVersions(InsertSorted(r, sorted))
    ensures forall x :: x in InsertSorted(r, sorted) ==> x == r || x in sorted
    decreases |sorted|
  {
    if sorted == [] || r.version <= sorted[0].version {
    } else {
      InsertKeepsDistinct(r, sorted[1..]);
      var rest := InsertSorted(r, sorted[1..]);
      forall i | 0 <= i < |rest|
        ensures rest[i].version != sorted[0].version
      {
        assert rest[i] in rest;
      }
    }
  }

  lemma {:induction false} SortKeepsDistinct(records: seq<Record>)
    requires DistinctVersions(records)
    ensures DistinctVersions(SortByVersion(records))
    ensures forall x :: x in SortByVersion(records) ==> x in records
    decreases |records|
  {
    if records != [] {
      var rest := SortByVersion(records[1..]);
      SortKeepsDistinct(records[1..]);
      SortSorts(records[1..]);
      forall i | 0 <= i < |rest|
        ensures rest[i].version != records[0].version
      {
        assert rest[i] in rest;
      }
      InsertKeepsDistinct(records[0], rest);
    }
  }
}
