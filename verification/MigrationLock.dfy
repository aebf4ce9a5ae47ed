/** The lock of migrations: one document with an owner and an end of life. */
module MigrationLock {
  import opened Common
  import opened Migration

  type Owner = string

  datatype LockDocument = LockDocument(owner: Owner, acquiredAt: Instant, expiresAt: Instant)

  /** The committed effects of migrations, in commit order. */
  datatype Change = Did(version: int) | Undid(version: int)

  /** A service's database, as migrations see it. */
  datatype Db = Db(records: seq<Record>, lock: Option<LockDocument>, changes: seq<Change>)

  /** The lock is another owner's and alive. */
  predicate IsBusy(lock: Option<LockDocument>, owner: Owner, now: Instant) {
    lock.Some? && lock.value.owner != owner && lock.value.expiresAt > now
  }

  /** The conditional upsert: written when absent, expired or already ours; otherwise rejected. */
  function Take(lock: Option<LockDocument>, owner: Owner, now: Instant, ttlMs: nat): (Option<LockDocument>, bool) {
    if lock.None? || lock.value.owner == owner || lock.value.expiresAt <= now
    then (Some(LockDocument(owner, now, now + ttlMs)), true)
    else (lock, false)
  }

  /** Only the stored owner extends the life of the lock. */
  function Renewed(lock: Option<LockDocument>, owner: Owner, now: Instant, ttlMs: nat): (Option<LockDocument>, bool) {
    if lock.Some? && lock.value.owner == owner then (Some(lock.value.(expiresAt := now + ttlMs)), true)
    else (lock, false)
  }

  function Released(lock: Option<LockDocument>, owner: Owner): Option<LockDocument> {
    if lock.Some? && lock.value.owner == owner then None else lock
  }

  /**
   * Releasing takes away exactly the caller's own lock: then anyone may take it at once and the caller can renew no
   * more; a lock that has passed to another owner keeps its document and its end of life.
   */
  lemma ReleaseFreesOnlyTheCallersLock(lock: Option<LockDocument>, owner: Owner, other: Owner, now: Instant, ttlMs: nat)
    ensures var after := Released(lock, owner);
            && !Renewed(after, owner, now, ttlMs).1
            && (lock.Some? && lock.value.owner == owner ==> Take(after, other, now, ttlMs).1)
            && (lock.Some? && lock.value.owner != owner ==>
                  && after == lock && (Renewed(after, lock.value.owner, now, ttlMs).1)
                  && (Take(after, other, now, ttlMs).1 <==> other == lock.value.owner || lock.value.expiresAt <= now))
  {
  }

  /** The database and the shared clock. What other instances do during a wait is anything. */
  class Database {
    const others: (nat, Db, Instant) -> (Db, nat)
    var records: seq<Record>
    var lock: Option<LockDocument>
    var changes: seq<Change>
    var now: Instant
    var sleeps: nat

    function Contents(): Db
      reads this
    {
      Db(records, lock, changes)
    }

    constructor (others: (nat, Db, Instant) -> (Db, nat), db: Db, now: Instant)
      ensures this.others == others && Contents() == db && this.now == now && sleeps == 0
    {
      this.others := others;
      records, lock, changes := db.records, db.lock, db.changes;
      this.now := now;
      sleeps := 0;
    }

    method Sleep(ms: nat)
      modifies this
      ensures sleeps == old(sleeps) + 1
      ensures var (found, late) := others(old(sleeps), old(Contents()), old(now));
              Contents() == found && now == old(now) + ms + late
    {
      var (found, late) := others(sleeps, Contents(), now);
      records, lock, changes := found.records, found.lock, found.changes;
      now := now + ms + late;
      sleeps := sleeps + 1;
    }
  }

  class MongoMigrationLock {
    const store: Database
    const owner: Owner
    const ttlMs: nat
    const pollMs: nat

    constructor (store: Database, owner: Owner, ttlMs: nat, pollMs: nat)
      ensures this.store == store && this.owner == owner && this.ttlMs == ttlMs && this.pollMs == pollMs
    {
      this.store := store;
      this.owner := owner;
      this.ttlMs := ttlMs;
      this.pollMs := pollMs;
    }

    method TryAcquire() returns (acquired: bool)
      modifies store`lock
      ensures (store.lock, acquired) == Take(old(store.lock), owner, store.now, ttlMs)
      ensures acquired <==> !IsBusy(old(store.lock), owner, store.now)
    {
      var (written, taken) := Take(store.lock, owner, store.now, ttlMs);
      store.lock := written;
      acquired := taken;
    }

    /**
     * Waits for the lock. It gives up only when the lock is still alive past its life plus one poll, which takes a
     * write by another owner during the wait; if nobody else writes, it always succeeds.
     */
    method Acquire() returns (acquired: bool)
      requires pollMs >= 1
      modifies store
      ensures acquired ==> store.lock == Some(LockDocument(owner, store.now, store.now + ttlMs))
      ensures !acquired ==>
                IsBusy(store.lock, owner, store.now) && store.now >= old(store.now) + ttlMs + pollMs
                && store.lock.value.expiresAt > old(store.now) + ttlMs + pollMs
      ensures (forall k, db, t :: store.others(k, db, t).0.lock == db.lock)
              && (old(store.lock).Some? ==> old(store.lock).value.expiresAt <= old(store.now) + ttlMs + pollMs)
              ==> acquired
    {
      var deadline := store.now + ttlMs + pollMs;
      acquired := TryAcquire();
      while !acquired
        invariant acquired ==> store.lock == Some(LockDocument(owner, store.now, store.now + ttlMs))
        invariant !acquired ==> IsBusy(store.lock, owner, store.now)
        invariant (forall k, db, t :: store.others(k, db, t).0.lock == db.lock) && !acquired ==>
                  store.lock == old(store.lock)
        decreases !acquired, deadline - store.now
      {
        if store.now >= deadline {
          return false;
        }
        store.Sleep(pollMs);
        acquired := TryAcquire();
      }
    }

    method Renew() returns (renewed: bool)
      modifies store`lock
      ensures renewed <==> old(store.lock).Some? && old(store.lock).value.owner == owner
      ensures (store.lock, renewed) == Renewed(old(store.lock), owner, store.now, ttlMs)
    {
      var (written, matched) := Renewed(store.lock, owner, store.now, ttlMs);
      store.lock := written;
      renewed := matched;
    }

    method Release()
      modifies store`lock
      ensures store.lock == Released(old(store.lock), owner)
      ensures !IsBusy(store.lock, owner, store.now) <==> !IsBusy(old(store.lock), owner, store.now)
      ensures old(store.lock).Some? && old(store.lock).value.owner != owner ==> store.lock == old(store.lock)
    {
      store.lock := Released(store.lock, owner);
    }
  }
}
