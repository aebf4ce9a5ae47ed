/** The worker's loop against the protocol: its turns are runs of it, and stale entries do not come back forever. */
module GroupRuns {
  import opened DeadLetters
  import opened Dispatch
  import opened StreamGroup
  import opened GroupProtocol
  import opened GroupWorker

  // ---------- a turn is a run of the protocol ----------

  /** The run leads worker `c` to `w` and the group to `g`, with nobody else moving. */
  predicate Leads(st: Settings, s: Sys, actions: seq<Action>, c: Consumer, g: Group, w: Worker) {
    var t := Exec(st, s, actions);
    t.g == g && t.now == s.now && t.workers == s.workers[c := w]
  }

  lemma {:induction false} LeadsOn(
    st: Settings, s: Sys, a: seq<Action>, b: seq<Action>, c: Consumer, g: Group, w: Worker, h: Group, v: Worker)
    requires Leads(st, s, a, c, g, w) && Leads(st, Exec(st, s, a), b, c, h, v)
    ensures Leads(st, s, a + b, c, h, v)
    decreases |a|
  {
    ExecSplits(st, s, a, b);
    assert s.workers[c := w][c := v] == s.workers[c := v];
  }

  /** One step without a lost reply. */
  lemma StepLeads(st: Settings, s: Sys, c: Consumer, outcome: Outcome, stop: bool, g: Group, w: Worker)
    requires c in s.workers && WorkerStep(st, c, s.g, s.now, s.workers[c], outcome, stop) == (g, w)
    ensures Leads(st, s, [Step(c, outcome, stop, false)], c, g, w)
  {
    var a := Step(c, outcome, stop, false);
    assert [a][1..] == [];
    assert Exec(st, s, [a]) == Exec(st, Apply(st, s, a), []);
  }

  function AfterSettling(entry: Entry, settlement: Settlement, next: Next): Worker {
    if settlement.Skipped? then AfterSettlement(entry, settlement, next) else Resume(next)
  }

  /** Carrying out a settlement takes at most two commands. */
  lemma EnactedIsARun(st: Settings, s: Sys, c: Consumer, world: World, entry: Entry, settlement: Settlement, next: Next)
    returns (actions: seq<Action>)
    requires c in s.workers && s.workers[c] == AfterSettlement(entry, settlement, next) && s.g == world.g
    ensures Leads(st, s, actions, c, Enacted(st, c, s.now, world, entry, settlement).g,
              AfterSettling(entry, settlement, next))
  {
    match settlement
    case Done =>
      StepLeads(st, s, c, Handled, false, Ack(s.g, [entry.id]), Resume(next));
      actions := [Step(c, Handled, false, false)];
    case Skipped =>
      actions := [];
      assert s.workers[c := s.workers[c]] == s.workers;
    case Retry(_) =>
      actions := [];
      assert s.workers[c := s.workers[c]] == s.workers;
    case Dead(_, _, _) =>
      var letter := DeadLetterFields(entry.fields, LetterOf(st, c, entry.id, settlement, s.now));
      var a := [Step(c, Handled, false, false)];
      StepLeads(st, s, c, Handled, false, AddDead(s.g, letter), DeadAcking(entry.id, next));
      var t := Exec(st, s, a);
      StepLeads(st, t, c, Handled, false, Ack(t.g, [entry.id]), Resume(next));
      LeadsOn(st, s, a, a, c, t.g, DeadAcking(entry.id, next), Ack(t.g, [entry.id]), Resume(next));
      actions := a + a;
  }

  lemma SettledIsARun(st: Settings, s: Sys, c: Consumer, env: Env, world: World, entry: Entry, attempt: nat, next: Next)
    returns (actions: seq<Action>)
    requires c in s.workers && s.workers[c] == AfterExamination(st.rules, entry, attempt, next) && s.g == world.g
    ensures var (after, settlement) := SettledWorld(st, c, env, s.now, world, entry, attempt);
            Leads(st, s, actions, c, after.g, AfterSettling(entry, settlement, next))
  {
    match Examine(st.rules, entry, attempt)
    case Settled(settlement) => actions := EnactedIsARun(st, s, c, world, entry, settlement, next);
    case GiveToHandler(envelope) =>
      var call := HandlerCall(entry.id, envelope, attempt);
      var outcome := env.answers(world.calls, call);
      var settlement := Conclude(st.rules, attempt, outcome);
      var a, b := [Step(c, outcome, false, false)], [Step(c, outcome, false, false)];
      StepLeads(st, s, c, outcome, false, s.g, Handling(entry, attempt, next));
      var t := Exec(st, s, a);
      StepLeads(st, t, c, outcome, false, s.g, AfterSettlement(entry, settlement, next));
      LeadsOn(st, s, a, b, c, s.g, Handling(entry, attempt, next), s.g, AfterSettlement(entry, settlement, next));
      var u := Exec(st, s, a + b);
      var called := world.(calls := world.calls + [call]);
      var rest := EnactedIsARun(st, u, c, called, entry, settlement, next);
      var done := Enacted(st, c, s.now, called, entry, settlement);
      LeadsOn(st, s, a + b, rest, c, s.g, AfterSettlement(entry, settlement, next), done.g,
        AfterSettling(entry, settlement, next));
      actions := a + b + rest;
  }

  lemma ReclaimedIsARun(st: Settings, s: Sys, c: Consumer, env: Env, world: World, stale: seq<PendingEntry>)
    returns (actions: seq<Action>)
    requires c in s.workers && s.workers[c] == Reclaiming(stale) && s.g == world.g && stale != []
    ensures Leads(st, s, actions, c, Reclaimed(st, c, env, s.now, world, stale[0]).g, Reclaiming(stale[1..]))
  {
    var next := InReclaim(stale[1..]);
    var (g, claimed) := Claim(world.g, s.now, c, stale[0].id, st.claimIdleMs);
    var a := [Step(c, Handled, false, false)];
    if claimed.None? {
      StepLeads(st, s, c, Handled, false, g, Reclaiming(stale[1..]));
      actions := a;
    } else {
      var attempt := stale[0].deliveries + 1;
      var given := AfterExamination(st.rules, claimed.value, attempt, next);
      StepLeads(st, s, c, Handled, false, g, given);
      var t := Exec(st, s, a);
      var b := SettledIsARun(st, t, c, env, world.(g := g), claimed.value, attempt, next);
      var (after, settlement) := SettledWorld(st, c, env, s.now, world.(g := g), claimed.value, attempt);
      LeadsOn(st, s, a, b, c, g, given, after.g, AfterSettling(claimed.value, settlement, next));
      actions := a + b;
      if settlement.Skipped? {
        var u := Exec(st, s, a + b);
        StepLeads(st, u, c, Handled, false, Ack(u.g, [stale[0].id]), Reclaiming(stale[1..]));
        LeadsOn(st, s, a + b, a, c, after.g, Acking(stale[0].id, next), Ack(after.g, [stale[0].id]),
          Reclaiming(stale[1..]));
        actions := a + b + a;
      }
    }
  }

  /** Working through the stale entries, up to the look at the shutdown signal after them. */
  lemma {:induction false} ReclaimIsARun(st: Settings, s: Sys, c: Consumer, env: Env, world: World,
                                         stale: seq<PendingEntry>)
    returns (actions: seq<Action>)
    requires c in s.workers && s.workers[c] == Reclaiming(stale) && s.g == world.g
    ensures var after := ReclaimRun(st, c, env, s.now, world, stale);
            Leads(st, s, actions, c, after.g, if env.aborted(after) then ReleaseCheck else ReadingNew)
    decreases |stale|
  {
    var after := ReclaimRun(st, c, env, s.now, world, stale);
    var last := if env.aborted(after) then ReleaseCheck else ReadingNew;
    if stale == [] || env.aborted(world) {
      StepLeads(st, s, c, Handled, env.aborted(world), s.g, last);
      actions := [Step(c, Handled, env.aborted(world), false)];
    } else {
      var a := ReclaimedIsARun(st, s, c, env, world, stale);
      var first := Reclaimed(st, c, env, s.now, world, stale[0]);
      var t := Exec(st, s, a);
      var b := ReclaimIsARun(st, t, c, env, first, stale[1..]);
      LeadsOn(st, s, a, b, c, first.g, Reclaiming(stale[1..]), after.g, last);
      actions := a + b;
    }
  }

  lemma BatchHeadIsARun(
    st: Settings, s: Sys, c: Consumer, env: Env, world: World, entries: seq<Entry>, skipped: seq<StreamId>)
    returns (actions: seq<Action>)
    requires c in s.workers && s.workers[c] == Batch(entries, skipped) && s.g == world.g && entries != []
    ensures var (after, settlement) := SettledWorld(st, c, env, s.now, world, entries[0], 1);
            var rest := if settlement.Skipped? then skipped + [entries[0].id] else skipped;
            Leads(st, s, actions, c, after.g, Batch(entries[1..], rest))
  {
    var next := InBatch(entries[1..], skipped);
    var given := AfterExamination(st.rules, entries[0], 1, next);
    var a := [Step(c, Handled, false, false)];
    StepLeads(st, s, c, Handled, false, s.g, given);
    var t := Exec(st, s, a);
    var b := SettledIsARun(st, t, c, env, world, entries[0], 1, next);
    var (after, settlement) := SettledWorld(st, c, env, s.now, world, entries[0], 1);
    LeadsOn(st, s, a, b, c, s.g, given, after.g, AfterSettling(entries[0], settlement, next));
    actions := a + b;
  }

  lemma {:induction false} BatchIsARun(
    st: Settings, s: Sys, c: Consumer, env: Env, world: World, entries: seq<Entry>, skipped: seq<StreamId>)
    returns (actions: seq<Action>)
    requires c in s.workers && s.workers[c] == Batch(entries, skipped) && s.g == world.g
    ensures Leads(st, s, actions, c, BatchRun(st, c, env, s.now, world, entries, skipped).g, Reading)
    decreases |entries|
  {
    var after := BatchRun(st, c, env, s.now, world, entries, skipped);
    var a := [Step(c, Handled, false, false)];
    if entries == [] && skipped == [] {
      StepLeads(st, s, c, Handled, false, s.g, Reading);
      actions := a;
    } else if entries == [] {
      StepLeads(st, s, c, Handled, false, s.g, BatchAcking(skipped));
      var t := Exec(st, s, a);
      StepLeads(st, t, c, Handled, false, Ack(s.g, skipped), Reading);
      LeadsOn(st, s, a, a, c, s.g, BatchAcking(skipped), Ack(s.g, skipped), Reading);
      actions := a + a;
    } else {
      var b := BatchHeadIsARun(st, s, c, env, world, entries, skipped);
      var (head, settlement) := SettledWorld(st, c, env, s.now, world, entries[0], 1);
      var rest := if settlement.Skipped? then skipped + [entries[0].id] else skipped;
      var t := Exec(st, s, b);
      var d := BatchIsARun(st, t, c, env, head, entries[1..], rest);
      LeadsOn(st, s, b, d, c, head.g, Batch(entries[1..], rest), after.g, Reading);
      actions := b + d;
    }
  }

  /** Every undisturbed turn of the loop is a run of the protocol, so whatever its runs keep, the loop keeps. */
  lemma TurnIsARun(st: Settings, s: Sys, c: Consumer, env: Env, world: World) returns (actions: seq<Action>)
    requires c in s.workers && s.workers[c] == Reading && s.g == world.g
    ensures var (after, stopped) := TurnRun(st, c, env, s.now, world);
            Leads(st, s, actions, c, after.g, if stopped then ReleaseCheck else Reading)
  {
    var stale := StalePending(s.g, s.now, st.claimIdleMs, st.batchSize);
    var a := [Step(c, Handled, false, false)];
    StepLeads(st, s, c, Handled, false, s.g, Reclaiming(stale));
    var t := Exec(st, s, a);
    var b := ReclaimIsARun(st, t, c, env, world, stale);
    var reclaimed := ReclaimRun(st, c, env, s.now, world, stale);
    var pause := if env.aborted(reclaimed) then ReleaseCheck else ReadingNew;
    LeadsOn(st, s, a, b, c, s.g, Reclaiming(stale), reclaimed.g, pause);
    actions := a + b;
    if pause == ReadingNew {
      var u := Exec(st, s, a + b);
      var (g, entries) := ReadNew(reclaimed.g, s.now, c, st.batchSize);
      StepLeads(st, u, c, Handled, false, g, Batch(entries, []));
      LeadsOn(st, s, a + b, a, c, reclaimed.g, ReadingNew, g, Batch(entries, []));
      var v := Exec(st, s, a + b + a);
      var d := BatchIsARun(st, v, c, env, reclaimed.(g := g), entries, []);
      LeadsOn(st, s, a + b + a, d, c, g, Batch(entries, []),
        BatchRun(st, c, env, s.now, reclaimed.(g := g), entries, []).g, Reading);
      actions := a + b + a + d;
    }
  }
}
