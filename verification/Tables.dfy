/** The transactions table: UNIQUE idempotency_key on insert, lookup by id and merchant, compare-and-set update. */
module TransactionTable {
  import opened Domain

  type Rows = map<Id, Transaction>

  predicate KeyTaken(rows: Rows, key: string) {
    exists t :: t in rows && rows[t].key == key
  }

  function Inserted(rows: Rows, row: Transaction, fault: Fault): Rows {
    if fault == NotApplied || KeyTaken(rows, row.key) then rows else rows[row.id := row]
  }

  function InsertError(rows: Rows, row: Transaction, fault: Fault): Option<Error> {
    if fault == NotApplied then Some(Database)
    else if KeyTaken(rows, row.key) then Some(DuplicateIdempotencyKey)
    else if fault == AckLost then Some(Database)
    else None
  }

  function Found(rows: Rows, id: Id, merchant: Id): Option<Transaction> {
    if id in rows && rows[id].merchant == merchant then Some(rows[id]) else None
  }

  predicate Matches(rows: Rows, id: Id, guard: Status) {
    id in rows && rows[id].status == guard
  }

  /** What callers read of the struct an update hands back. */
  datatype Returned = Returned(id: Id, status: Label)

  /** On a miss the id is zero; whether the written status is filled in all the same is up to the ORM. */
  function ReturnedBy(rows: Rows, id: Id, guard: Status, p: Patch, fillsOnMiss: bool): Returned {
    if Matches(rows, id, guard) then Returned(rows[id].id, Tx(p.status))
    else Returned(NIL_ID, if fillsOnMiss then Tx(p.status) else Blank)
  }

  function Updated(rows: Rows, id: Id, guard: Status, p: Patch): Rows {
    if Matches(rows, id, guard) then rows[id := Patched(rows[id], p)] else rows
  }

  /** A command the database was sent, and how it went. */
  datatype TxCommand =
    | CreateTx(row: Transaction, fault: Fault)
    | FindTx(id: Id, merchant: Id, failed: bool)
    | UpdateTx(id: Id, guard: Status, patch: Patch, fault: Fault)

  class TransactionRepository {
    var rows: Rows

    /** What this repository has sent so far. */
    ghost var commands: seq<TxCommand>

    /** Whether the ORM fills the written columns into the returned struct even if no row matched. */
    const fillsOnMiss: bool

    constructor (fillsOnMiss: bool)
      ensures rows == map[] && this.fillsOnMiss == fillsOnMiss
    {
      rows, commands := map[], [];
      this.fillsOnMiss := fillsOnMiss;
    }

    method Create(row: Transaction) returns (error: Option<Error>, fault: Fault)
      requires row.id !in rows
      modifies this`rows, this`commands
      ensures rows == Inserted(old(rows), row, fault)
      ensures error == InsertError(old(rows), row, fault)
      ensures commands == old(commands) + [CreateTx(row, fault)]
    {
      error, fault := None, NoFault;
      var failed: bool := *;
      if failed {
        error, fault := Some(Database), NotApplied;
      } else if KeyTaken(rows, row.key) {
        error := Some(DuplicateIdempotencyKey);
      } else {
        rows := rows[row.id := row];
        var unacknowledged: bool := *;
        if unacknowledged {
          error, fault := Some(Database), AckLost;
        }
      }
      commands := commands + [CreateTx(row, fault)];
    }

    method FindByIDAndMerchantID(id: Id, merchant: Id) returns (row: Option<Transaction>, failed: bool)
      modifies this`commands
      ensures failed ==> row.None?
      ensures !failed ==> row == Found(rows, id, merchant)
      ensures commands == old(commands) + [FindTx(id, merchant, failed)]
    {
      failed := *;
      if !failed && id in rows && rows[id].merchant == merchant {
        row := Some(rows[id]);
      } else {
        row := None;
      }
      commands := commands + [FindTx(id, merchant, failed)];
    }

    /** A miss is not an error: the caller gets a struct with a zero id and nothing else to tell it by. */
    method UpdateByQueryAndReturn(id: Id, guard: Status, p: Patch) returns (data: Option<Returned>, fault: Fault)
      modifies this`rows, this`commands
      ensures rows == if fault == NotApplied then old(rows) else Updated(old(rows), id, guard, p)
      ensures data == if fault == NoFault then Some(ReturnedBy(old(rows), id, guard, p, fillsOnMiss)) else None
      ensures commands == old(commands) + [UpdateTx(id, guard, p, fault)]
    {
      var failed: bool := *;
      if failed {
        commands := commands + [UpdateTx(id, guard, p, NotApplied)];
        return None, NotApplied;
      }
      var filled := Returned(NIL_ID, if fillsOnMiss then Tx(p.status) else Blank);
      if id in rows && rows[id].status == guard {
        rows := rows[id := Patched(rows[id], p)];
        filled := Returned(rows[id].id, Tx(rows[id].status));
      }
      failed := *;
      fault := if failed then AckLost else NoFault;
      commands := commands + [UpdateTx(id, guard, p, fault)];
      data := if failed then None else Some(filled);
    }
  }
}

/** The refunds table: append only. */
module RefundTable {
  import opened Domain

  /** An insert the database was sent, and how it went. */
  datatype RefundCommand = CreateRefundRow(row: RefundRow, fault: Fault)

  class RefundRepository {
    var refunds: seq<RefundRow>
    ghost var commands: seq<RefundCommand>

    constructor ()
      ensures refunds == []
    {
      refunds, commands := [], [];
    }

    method Create(row: RefundRow) returns (failed: bool, fault: Fault)
      modifies this
      ensures commands == old(commands) + [CreateRefundRow(row, fault)]
      ensures refunds == if fault == NotApplied then old(refunds) else old(refunds) + [row]
      ensures failed <==> fault != NoFault
    {
      failed := *;
      fault := if failed then NotApplied else NoFault;
      if !failed {
        refunds := refunds + [row];
        failed := *;
        fault := if failed then AckLost else NoFault;
      }
      commands := commands + [CreateRefundRow(row, fault)];
    }
  }
}

/** The idempotency_keys table: insert only, primary key on the parsed key alone, lookups skip expired rows. */
module IdempotencyTable {
  import opened Domain

  const DAY: nat := 86400

  datatype CacheRow = CacheRow(merchant: Id, response: Output, expires: nat)

  type Cache = map<Id, CacheRow>

  function Stored(cache: Cache, key: Id, row: CacheRow): Cache {
    if key in cache then cache else cache[key := row]
  }

  function Cached(cache: Cache, key: Id, merchant: Id, now: nat): Option<Output> {
    if key in cache && cache[key].merchant == merchant && now < cache[key].expires then Some(cache[key].response) else None
  }

  /** A command the database was sent, and how it went. */
  datatype CacheCommand =
    | CreateKey(key: Id, row: CacheRow, fault: Fault)
    | FindKey(key: Id, merchant: Id, at: nat, failed: bool)

  class IdempotencyKeyRepository {
    var cache: Cache
    ghost var commands: seq<CacheCommand>

    constructor ()
      ensures cache == map[]
    {
      cache, commands := map[], [];
    }

    /** A taken key is an error, and so is a write that failed or was not acknowledged. */
    method Create(key: Id, row: CacheRow) returns (failed: bool, fault: Fault)
      modifies this
      ensures cache == if fault == NotApplied then old(cache) else Stored(old(cache), key, row)
      ensures failed <==> fault != NoFault || key in old(cache)
      ensures commands == old(commands) + [CreateKey(key, row, fault)]
    {
      failed := *;
      fault := if failed then NotApplied else NoFault;
      if !failed && key in cache {
        failed := true;
      } else if !failed {
        cache := cache[key := row];
        failed := *;
        fault := if failed then AckLost else NoFault;
      }
      commands := commands + [CreateKey(key, row, fault)];
    }

    method FindByKeyAndMerchantID(key: Id, merchant: Id, now: nat) returns (response: Option<Output>, failed: bool)
      modifies this`commands
      ensures failed ==> response.None?
      ensures !failed ==> response == Cached(cache, key, merchant, now)
      ensures commands == old(commands) + [FindKey(key, merchant, now, failed)]
    {
      failed := *;
      if !failed && key in cache && cache[key].merchant == merchant && now < cache[key].expires {
        response := Some(cache[key].response);
      } else {
        response := None;
      }
      commands := commands + [FindKey(key, merchant, now, failed)];
    }
  }
}

/** The Redis lease lock: set-if-absent with a time to live, compare-and-delete. */
module LeaseLock {
  import opened Domain

  const LOCK_TTL: nat := 5

  datatype Lease = Lease(token: Id, expires: nat)

  type Locks = map<Id, Lease>

  predicate Live(locks: Locks, key: Id, now: nat) {
    key in locks && now < locks[key].expires
  }

  function Acquired(locks: Locks, key: Id, lease: Lease, now: nat): Locks {
    if Live(locks, key, now) then locks else locks[key := lease]
  }

  function Released(locks: Locks, key: Id, token: Id, now: nat): Locks {
    if Live(locks, key, now) && locks[key].token == token then locks - {key} else locks
  }

  /** A command Redis was sent, and how it went. */
  datatype LockCommand =
    | SetIfAbsent(key: Id, token: Id, ttl: nat, fault: Fault)
    | CompareAndDelete(key: Id, token: Id, applied: bool)

  class RedisLock {
    var locks: Locks
    ghost var commands: seq<LockCommand>

    /** Whether the Redis client hands the nil reply of a SET that was not performed back as an error. */
    const nilIsError: bool

    constructor (nilIsError: bool)
      ensures locks == map[] && this.nilIsError == nilIsError
    {
      locks, commands := map[], [];
      this.nilIsError := nilIsError;
    }

    /** The lock value on success; for a held key the client's nil error or just no value; an error when Redis fails. */
    method Acquire(key: Id, token: Id, ttl: nat, now: nat)
      returns (value: Option<Id>, error: Option<Error>, fault: Fault)
      modifies this`locks, this`commands
      ensures locks == if fault == NotApplied then old(locks) else Acquired(old(locks), key, Lease(token, now + ttl), now)
      ensures error == if fault != NoFault then Some(LockStore)
                       else if Live(old(locks), key, now) && nilIsError then Some(RedisNil) else None
      ensures value == if error.None? && !Live(old(locks), key, now) then Some(token) else None
      ensures commands == old(commands) + [SetIfAbsent(key, token, ttl, fault)]
    {
      value, error := None, None;
      var failed: bool := *;
      fault := if failed then NotApplied else NoFault;
      if failed {
        error := Some(LockStore);
      } else {
        var absent := !(key in locks && now < locks[key].expires);
        if absent {
          locks := locks[key := Lease(token, now + ttl)];
        }
        failed := *;
        if failed {
          error, fault := Some(LockStore), AckLost;
        } else if absent {
          value := Some(token);
        } else if nilIsError {
          error := Some(RedisNil);
        }
      }
      commands := commands + [SetIfAbsent(key, token, ttl, fault)];
    }

    method Release(key: Id, token: Id, now: nat) returns (applied: bool)
      modifies this`locks, this`commands
      ensures locks == if applied then Released(old(locks), key, token, now) else old(locks)
      ensures commands == old(commands) + [CompareAndDelete(key, token, applied)]
    {
      applied := *;
      if applied && key in locks && now < locks[key].expires && locks[key].token == token {
        locks := locks - {key};
      }
      commands := commands + [CompareAndDelete(key, token, applied)];
    }
  }
}
