/** The bulk writer of the SQL accessor: rows are cut into batches of
    batch_size, and each batch is written with up to max_retries retries after
    an OperationalError, waiting 2^k seconds before retry k. The database
    write is an oracle: db(n) is the outcome of the n-th write attempt of the
    call. The model records every attempt and every wait as an event. */
module Sql {
  import opened Wrappers
  import opened Chunking

  datatype WriteOutcome = Written | OperationalError(message: string) | OtherError(message: string)

  /** Attempt: one batch.to_sql call, for the batch starting at row `start`,
      made when the retry counter was `retry`. Backoff: one time.sleep. */
  datatype Event<T> =
    | Attempt(start: nat, rows: seq<T>, retry: nat, outcome: WriteOutcome)
    | Backoff(seconds: nat)

  /** BadBatchSize is the ValueError range() raises for a batch size of 0;
      WriteFailed is the database error re-raised by the retry loop. */
  datatype InsertError = BadBatchSize | WriteFailed(outcome: WriteOutcome)

  datatype Status = Completed | Raised(error: InsertError)

  /** A run of the retry loop or of the whole insert: how it ended, what it
      did, and how many write outcomes it used up. */
  datatype Run<T> = Run(status: Status, events: seq<Event<T>>, used: nat)

  function Pow2(k: nat): (p: nat)
    ensures p >= 1
  {
    if k == 0 then 1 else 2 * Pow2(k - 1)
  }

  /** A run that follows events already done and outcomes already used. */
  function Then<T>(done: seq<Event<T>>, used: nat, r: Run<T>): Run<T>
  {
    Run(r.status, done + r.events, used + r.used)
  }

  /** The while loop for one batch, entered with the counter at `retries`
      and the next outcome at db(next). */
  function RetryLoop<T>(rows: seq<T>, start: nat, db: nat -> WriteOutcome, next: nat, retries: nat, maxRetries: int): Run<T>
    decreases maxRetries - retries
  {
    if retries > maxRetries then Run(Completed, [], 0)
    else
      var outcome := db(next);
      var attempt := Attempt(start, rows, retries, outcome);
      match outcome
      case Written => Run(Completed, [attempt], 1)
      case OtherError(_) => Run(Raised(WriteFailed(outcome)), [attempt], 1)
      case OperationalError(_) =>
        if retries + 1 > maxRetries then Run(Raised(WriteFailed(outcome)), [attempt], 1)
        else Then([attempt, Backoff(Pow2(retries + 1))], 1,
                  RetryLoop(rows, start, db, next + 1, retries + 1, maxRetries))
  }

  /** The for loop from offset i on. */
  function InsertFrom<T>(data: seq<T>, batchSize: nat, i: nat, db: nat -> WriteOutcome, next: nat, maxRetries: int): Run<T>
    requires batchSize > 0
    decreases |data| - i
  {
    if i >= |data| then Run(Completed, [], 0)
    else
      var batch := RetryLoop(data[i .. Min(i + batchSize, |data|)], i, db, next, 0, maxRetries);
      if batch.status.Raised? then batch
      else Then(batch.events, batch.used, InsertFrom(data, batchSize, i + batchSize, db, next + batch.used, maxRetries))
  }

  /** insert_bulk_rows_batch as a whole. */
  function BulkInsert<T>(data: seq<T>, batchSize: int, maxRetries: int, db: nat -> WriteOutcome): Run<T>
  {
    if batchSize == 0 then Run(Raised(BadBatchSize), [], 0)
    else if batchSize < 0 then Run(Completed, [], 0)
    else InsertFrom(data, batchSize, 0, db, 0, maxRetries)
  }

  lemma ThenThen<T>(a: seq<Event<T>>, m: nat, b: seq<Event<T>>, n: nat, r: Run<T>)
    ensures Then(a, m, Then(b, n, r)) == Then(a + b, m + n, r)
  {
    assert a + (b + r.events) == (a + b) + r.events;
  }

  /** The retry loop of one batch (the inner while loop): write, and on an
      OperationalError count a retry, re-raise past maxRetries, otherwise
      wait 2^retries seconds and write again. */
  method WriteBatch<T>(batch: seq<T>, start: nat, db: nat -> WriteOutcome, first: nat, maxRetries: int)
    returns (status: Status, batchEvents: seq<Event<T>>, used: nat)
    ensures Run(status, batchEvents, used) == RetryLoop(batch, start, db, first, 0, maxRetries)
  {
    ghost var whole := RetryLoop(batch, start, db, first, 0, maxRetries);
    batchEvents, used := [], 0;
    var retries := 0;
    while retries <= maxRetries
      invariant whole == Then(batchEvents, used, RetryLoop(batch, start, db, first + used, retries, maxRetries))
      decreases maxRetries - retries
    {
      var outcome := db(first + used);
      var attempt := Attempt(start, batch, retries, outcome);
      if outcome.Written? {
        return Completed, batchEvents + [attempt], used + 1;
      }
      if outcome.OtherError? {
        return Raised(WriteFailed(outcome)), batchEvents + [attempt], used + 1;
      }
      retries := retries + 1;
      if retries > maxRetries {
        return Raised(WriteFailed(outcome)), batchEvents + [attempt], used + 1;
      }
      ThenThen(batchEvents, used, [attempt, Backoff(Pow2(retries))], 1,
               RetryLoop(batch, start, db, first + used + 1, retries, maxRetries));
      batchEvents, used := batchEvents + [attempt, Backoff(Pow2(retries))], used + 1;
    }
    status := Completed;
    assert batchEvents + [] == batchEvents;
  }

  /** insert_bulk_rows_batch: the for loop over batch offsets. */
  method InsertBulkRowsBatch<T>(data: seq<T>, batchSize: int, maxRetries: int, db: nat -> WriteOutcome)
    returns (status: Status, events: seq<Event<T>>)
    ensures status == BulkInsert(data, batchSize, maxRetries, db).status
    ensures events == BulkInsert(data, batchSize, maxRetries, db).events
  {
    if batchSize == 0 {
      return Raised(BadBatchSize), [];
    }
    if batchSize < 0 {
      return Completed, [];
    }
    ghost var whole := InsertFrom(data, batchSize, 0, db, 0, maxRetries);
    events := [];
    var next := 0;
    var i := 0;
    while i < |data|
      invariant whole == Then(events, next, InsertFrom(data, batchSize, i, db, next, maxRetries))
      decreases |data| - i
    {
      var batch := data[i .. Min(i + batchSize, |data|)];
      var batchStatus, batchEvents, used := WriteBatch(batch, i, db, next, maxRetries);
      if batchStatus.Raised? {
        return batchStatus, events + batchEvents;
      }
      ThenThen(events, next, batchEvents, used, InsertFrom(data, batchSize, i + batchSize, db, next + used, maxRetries));
      events, next := events + batchEvents, next + used;
      i := i + batchSize;
    }
    status := Completed;
    assert events + [] == events;
  }

  // ----- what one batch's retry loop does

  /** The events of one batch alternate attempt, wait, attempt, ...: the
      attempt at position 2j is the j-th retry and reads the j-th outcome, and
      the wait before retry k is 2^k seconds. There are at most maxRetries + 1
      attempts. */
  lemma {:induction false} RetryLoopEvents<T>(rows: seq<T>, start: nat, db: nat -> WriteOutcome, next: nat,
                                                retries: nat, maxRetries: int)
    requires retries <= maxRetries
    ensures var r := RetryLoop(rows, start, db, next, retries, maxRetries);
      && 1 <= r.used <= maxRetries - retries + 1
      && |r.events| == 2 * r.used - 1
      && forall k :: 0 <= k < |r.events| ==>
           r.events[k] == if k % 2 == 0 then Attempt(start, rows, retries + k / 2, db(next + k / 2))
                          else Backoff(Pow2(retries + (k + 1) / 2))
    decreases maxRetries - retries
  {
    var r := RetryLoop(rows, start, db, next, retries, maxRetries);
    if db(next).OperationalError? && retries + 1 <= maxRetries {
      var rest := RetryLoop(rows, start, db, next + 1, retries + 1, maxRetries);
      RetryLoopEvents(rows, start, db, next + 1, retries + 1, maxRetries);
      assert r.events == [Attempt(start, rows, retries, db(next)), Backoff(Pow2(retries + 1))] + rest.events;
      forall k | 2 <= k < |r.events|
        ensures r.events[k] == if k % 2 == 0 then Attempt(start, rows, retries + k / 2, db(next + k / 2))
                               else Backoff(Pow2(retries + (k + 1) / 2))
      {
        assert r.events[k] == rest.events[k - 2];
      }
    }
  }

  /** How one batch's retry loop ends: every outcome but the last was an
      OperationalError; it completes exactly when the last write succeeded;
      it re-raises the last error, which is either not an OperationalError
      or the one that exhausted maxRetries. */
  lemma {:induction false} RetryLoopOutcome<T>(rows: seq<T>, start: nat, db: nat -> WriteOutcome, next: nat,
                                                 retries: nat, maxRetries: int)
    requires retries <= maxRetries
    ensures var r := RetryLoop(rows, start, db, next, retries, maxRetries);
      && r.used >= 1
      && (forall n :: next <= n < next + r.used - 1 ==> db(n).OperationalError?)
      && (r.status == Completed <==> db(next + r.used - 1) == Written)
      && (r.status.Raised? ==>
            && r.status.error == WriteFailed(db(next + r.used - 1))
            && (db(next + r.used - 1).OtherError? || r.used == maxRetries - retries + 1))
    decreases maxRetries - retries
  {
    if db(next).OperationalError? && retries + 1 <= maxRetries {
      RetryLoopOutcome(rows, start, db, next + 1, retries + 1, maxRetries);
    }
  }

  /** maxRetries + 1 OperationalErrors in a row re-raise the last of them. */
  lemma RetriesExhausted<T>(rows: seq<T>, start: nat, db: nat -> WriteOutcome, next: nat, maxRetries: nat)
    requires forall n :: next <= n <= next + maxRetries ==> db(n).OperationalError?
    ensures RetryLoop(rows, start, db, next, 0, maxRetries).status == Raised(WriteFailed(db(next + maxRetries)))
    ensures RetryLoop(rows, start, db, next, 0, maxRetries).used == maxRetries + 1
  {
    RetryLoopEvents(rows, start, db, next, 0, maxRetries);
    RetryLoopOutcome(rows, start, db, next, 0, maxRetries);
    var r := RetryLoop(rows, start, db, next, 0, maxRetries);
    assert db(next + r.used - 1).OperationalError?;
  }

  // ----- the rows that reach the table

  /** The batches of the attempts that succeeded, in order. */
  function WrittenRows<T>(events: seq<Event<T>>): seq<seq<T>>
  {
    if events == [] then []
    else (if events[0].Attempt? && events[0].outcome == Written then [events[0].rows] else [])
         + WrittenRows(events[1..])
  }

  lemma {:induction false} WrittenRowsAppend<T>(a: seq<Event<T>>, b: seq<Event<T>>)
    ensures WrittenRows(a + b) == WrittenRows(a) + WrittenRows(b)
  {
    if a == [] {
      assert a + b == b;
    } else {
      assert (a + b)[0] == a[0];
      assert (a + b)[1..] == a[1..] + b;
      WrittenRowsAppend(a[1..], b);
    }
  }

  lemma {:induction false} RetryLoopWrites<T>(rows: seq<T>, start: nat, db: nat -> WriteOutcome, next: nat,
                                                retries: nat, maxRetries: int)
    ensures var r := RetryLoop(rows, start, db, next, retries, maxRetries);
      WrittenRows(r.events) == if r.status == Completed && retries <= maxRetries then [rows] else []
    decreases maxRetries - retries
  {
    if retries <= maxRetries && db(next).OperationalError? && retries + 1 <= maxRetries {
      var e := [Attempt(start, rows, retries, db(next)), Backoff(Pow2(retries + 1))];
      var rest := RetryLoop(rows, start, db, next + 1, retries + 1, maxRetries);
      RetryLoopWrites(rows, start, db, next + 1, retries + 1, maxRetries);
      WrittenRowsAppend(e, rest.events);
      assert WrittenRows(e) == [];
    }
  }

  /** One step of the for loop: the batch at offset i, then the rest unless it raised. */
  lemma InsertFromStep<T>(data: seq<T>, batchSize: nat, i: nat, db: nat -> WriteOutcome, next: nat, maxRetries: int)
    requires batchSize > 0 && i < |data|
    ensures var batch := RetryLoop(data[i .. Min(i + batchSize, |data|)], i, db, next, 0, maxRetries);
      var r := InsertFrom(data, batchSize, i, db, next, maxRetries);
      var rest := InsertFrom(data, batchSize, i + batchSize, db, next + batch.used, maxRetries);
      && (batch.status.Raised? ==> r == batch)
      && (!batch.status.Raised? ==> r.status == rest.status && r.events == batch.events + rest.events)
  {
  }

  /** The chunks from offset i are the batch at i followed by the chunks from i + batchSize. */
  lemma ChunksFromStep<T>(data: seq<T>, batchSize: nat, i: nat)
    requires batchSize > 0 && i < |data|
    ensures Chunks(data[i..], batchSize)
         == [data[i .. Min(i + batchSize, |data|)]] + Chunks(data[Min(i + batchSize, |data|)..], batchSize)
  {
    var tail := data[i..];
    if |tail| > batchSize {
      assert tail[..batchSize] == data[i .. i + batchSize];
      assert tail[batchSize..] == data[i + batchSize..];
    } else {
      assert tail == data[i .. |data|];
      assert data[|data|..] == [];
    }
  }

  lemma {:induction false} InsertFromWrites<T>(data: seq<T>, batchSize: nat, i: nat, db: nat -> WriteOutcome,
                                                 next: nat, maxRetries: nat)
    requires batchSize > 0
    ensures var r := InsertFrom(data, batchSize, i, db, next, maxRetries);
      r.status == Completed ==> WrittenRows(r.events) == Chunks(data[Min(i, |data|)..], batchSize)
    decreases |data| - i
  {
    if i < |data| {
      var rows := data[i .. Min(i + batchSize, |data|)];
      var batch := RetryLoop(rows, i, db, next, 0, maxRetries);
      InsertFromStep(data, batchSize, i, db, next, maxRetries);
      RetryLoopWrites(rows, i, db, next, 0, maxRetries);
      if batch.status == Completed {
        var r := InsertFrom(data, batchSize, i, db, next, maxRetries);
        var rest := InsertFrom(data, batchSize, i + batchSize, db, next + batch.used, maxRetries);
        assert WrittenRows(batch.events) == [rows];
        assert r.status == rest.status && r.events == batch.events + rest.events;
        InsertFromWrites(data, batchSize, i + batchSize, db, next + batch.used, maxRetries);
        WrittenRowsAppend(batch.events, rest.events);
        ChunksFromStep(data, batchSize, i);
        assert Min(i, |data|) == i;
      }
    } else {
      assert data[Min(i, |data|)..] == [];
    }
  }

  /** A completed insert with maxRetries >= 0 wrote every row exactly once,
      in order: the successful batches are the chunks of the data, and there
      are ceil(len(data) / batch_size) of them. */
  lemma BulkInsertWritesEveryRowOnce<T>(data: seq<T>, batchSize: nat, maxRetries: nat, db: nat -> WriteOutcome)
    requires batchSize > 0
    requires BulkInsert(data, batchSize, maxRetries, db).status == Completed
    ensures WrittenRows(BulkInsert(data, batchSize, maxRetries, db).events) == Chunks(data, batchSize)
    ensures Flatten(WrittenRows(BulkInsert(data, batchSize, maxRetries, db).events)) == data
    ensures |WrittenRows(BulkInsert(data, batchSize, maxRetries, db).events)| == ChunkCount(|data|, batchSize)
  {
    InsertFromWrites(data, batchSize, 0, db, 0, maxRetries);
    assert data[0..] == data;
    ChunksFlatten(data, batchSize);
    ChunksCount(data, batchSize);
  }

  /** No rows, or a negative maxRetries, mean no write at all and a normal
      return (for a non-zero batch size). */
  lemma {:induction false} NothingToWrite<T>(data: seq<T>, batchSize: nat, i: nat, db: nat -> WriteOutcome,
                                               next: nat, maxRetries: int)
    requires batchSize > 0
    requires i >= |data| || maxRetries < 0
    ensures InsertFrom(data, batchSize, i, db, next, maxRetries) == Run(Completed, [], 0)
    decreases |data| - i
  {
    if i < |data| {
      NothingToWrite(data, batchSize, i + batchSize, db, next, maxRetries);
    }
  }

  // ----- the order of attempts and waits over the whole run

  /** Where an event sits in a run: an attempt directly after an attempt
      (or first) starts a batch with the counter reset to 0; an attempt after
      a wait of 2^k seconds is retry k of the same batch, which follows an
      OperationalError; the counter never passes maxRetries. */
  ghost predicate WellPlaced<T>(events: seq<Event<T>>, k: nat, maxRetries: int)
    requires k < |events|
  {
    match events[k]
    case Attempt(_, _, retry, _) =>
      && retry <= maxRetries
      && if k == 0 || events[k - 1].Attempt? then retry == 0
         else events[k - 1] == Backoff(Pow2(retry)) && retry >= 1
    case Backoff(_) =>
      && 0 < k < |events| - 1
      && events[k - 1].Attempt? && events[k - 1].outcome.OperationalError?
      && events[k + 1].Attempt?
      && events[k + 1].start == events[k - 1].start
      && events[k + 1].retry == events[k - 1].retry + 1
  }

  ghost predicate RetryDiscipline<T>(events: seq<Event<T>>, maxRetries: int)
  {
    && (events != [] ==> events[0].Attempt? && events[|events| - 1].Attempt?)
    && forall k :: 0 <= k < |events| ==> WellPlaced(events, k, maxRetries)
  }

  lemma RetryLoopDiscipline<T>(rows: seq<T>, start: nat, db: nat -> WriteOutcome, next: nat, maxRetries: int)
    ensures RetryDiscipline(RetryLoop(rows, start, db, next, 0, maxRetries).events, maxRetries)
  {
    if 0 <= maxRetries {
      var r := RetryLoop(rows, start, db, next, 0, maxRetries);
      RetryLoopEvents(rows, start, db, next, 0, maxRetries);
      RetryLoopOutcome(rows, start, db, next, 0, maxRetries);
      forall k | 0 <= k < |r.events| ensures WellPlaced(r.events, k, maxRetries) {
        if k % 2 == 1 {
          assert r.events[k - 1] == Attempt(start, rows, (k - 1) / 2, db(next + (k - 1) / 2));
          assert r.events[k + 1] == Attempt(start, rows, (k + 1) / 2, db(next + (k + 1) / 2));
        } else if k > 0 {
          assert r.events[k - 1] == Backoff(Pow2(k / 2));
        }
      }
    }
  }

  lemma DisciplineAppend<T>(a: seq<Event<T>>, b: seq<Event<T>>, maxRetries: int)
    requires RetryDiscipline(a, maxRetries) && RetryDiscipline(b, maxRetries)
    ensures RetryDiscipline(a + b, maxRetries)
  {
    var c := a + b;
    forall k | 0 <= k < |c| ensures WellPlaced(c, k, maxRetries) {
      if k < |a| {
        assert WellPlaced(a, k, maxRetries);
        if a[k].Backoff? {
          assert c[k + 1] == a[k + 1];
        }
      } else {
        assert WellPlaced(b, k - |a|, maxRetries);
        assert c[k] == b[k - |a|];
        if k > |a| {
          assert c[k - 1] == b[k - |a| - 1];
        }
        if b[k - |a|].Backoff? {
          assert c[k + 1] == b[k - |a| + 1];
        }
      }
    }
  }

  lemma {:induction false} InsertFromDiscipline<T>(data: seq<T>, batchSize: nat, i: nat, db: nat -> WriteOutcome,
                                                     next: nat, maxRetries: int)
    requires batchSize > 0
    ensures RetryDiscipline(InsertFrom(data, batchSize, i, db, next, maxRetries).events, maxRetries)
    decreases |data| - i
  {
    if i < |data| {
      var rows := data[i .. Min(i + batchSize, |data|)];
      var batch := RetryLoop(rows, i, db, next, 0, maxRetries);
      RetryLoopDiscipline(rows, i, db, next, maxRetries);
      if batch.status == Completed {
        InsertFromDiscipline(data, batchSize, i + batchSize, db, next + batch.used, maxRetries);
        DisciplineAppend(batch.events, InsertFrom(data, batchSize, i + batchSize, db, next + batch.used, maxRetries).events,
                         maxRetries);
      }
    }
  }

  /** Over the whole call: every batch starts at retry 0, each retry k
      follows a wait of 2^k seconds after an OperationalError of the same
      batch, and no batch gets more than maxRetries + 1 attempts. */
  lemma BulkInsertDiscipline<T>(data: seq<T>, batchSize: int, maxRetries: int, db: nat -> WriteOutcome)
    ensures RetryDiscipline(BulkInsert(data, batchSize, maxRetries, db).events, maxRetries)
  {
    if batchSize > 0 {
      InsertFromDiscipline(data, batchSize, 0, db, 0, maxRetries);
    }
  }

  // ----- an error stops the whole call

  ghost predicate AttemptsBetween<T>(events: seq<Event<T>>, lo: nat, hi: nat)
  {
    forall k :: 0 <= k < |events| && events[k].Attempt? ==> lo <= events[k].start <= hi
  }

  lemma RetryLoopStarts<T>(rows: seq<T>, start: nat, db: nat -> WriteOutcome, next: nat, maxRetries: int)
    ensures AttemptsBetween(RetryLoop(rows, start, db, next, 0, maxRetries).events, start, start)
  {
    if 0 <= maxRetries {
      RetryLoopEvents(rows, start, db, next, 0, maxRetries);
    }
  }

  lemma RetryLoopLast<T>(rows: seq<T>, start: nat, db: nat -> WriteOutcome, next: nat, maxRetries: int)
    requires RetryLoop(rows, start, db, next, 0, maxRetries).status.Raised?
    ensures var r := RetryLoop(rows, start, db, next, 0, maxRetries);
      && r.events != []
      && r.events[|r.events| - 1].Attempt?
      && r.status.error == WriteFailed(r.events[|r.events| - 1].outcome)
      && AttemptsBetween(r.events, start, start)
  {
    assert 0 <= maxRetries;
    RetryLoopEvents(rows, start, db, next, 0, maxRetries);
    RetryLoopOutcome(rows, start, db, next, 0, maxRetries);
    var r := RetryLoop(rows, start, db, next, 0, maxRetries);
    assert r.events[|r.events| - 1] == Attempt(start, rows, r.used - 1, db(next + r.used - 1));
  }

  lemma AttemptsBetweenAppend<T>(a: seq<Event<T>>, b: seq<Event<T>>, lo: nat, mid: nat, hi: nat)
    requires lo <= mid <= hi && AttemptsBetween(a, lo, lo) && AttemptsBetween(b, mid, hi)
    ensures AttemptsBetween(a + b, lo, hi)
  {
    forall k | 0 <= k < |a + b| && (a + b)[k].Attempt? ensures lo <= (a + b)[k].start <= hi {
      if k < |a| {
        assert (a + b)[k] == a[k];
      } else {
        assert (a + b)[k] == b[k - |a|];
      }
    }
  }

  /** A run that ends with the failing attempt, whose outcome is the error
      raised, and whose attempts are all on batches from lo up to that one. */
  ghost predicate EndsInFailure<T>(r: Run<T>, lo: nat)
  {
    && r.status.Raised?
    && r.events != []
    && r.events[|r.events| - 1].Attempt?
    && r.status.error == WriteFailed(r.events[|r.events| - 1].outcome)
    && AttemptsBetween(r.events, lo, r.events[|r.events| - 1].start)
  }

  /** A batch that completed, on attempts at lo only, and then a failing run from mid >= lo. */
  lemma EndsInFailureAfter<T>(done: seq<Event<T>>, used: nat, rest: Run<T>, lo: nat, mid: nat)
    requires lo <= mid && AttemptsBetween(done, lo, lo) && EndsInFailure(rest, mid)
    ensures EndsInFailure(Run(rest.status, done + rest.events, used), lo)
  {
    var last := rest.events[|rest.events| - 1];
    assert (done + rest.events)[|done + rest.events| - 1] == last;
    AttemptsBetweenAppend(done, rest.events, lo, mid, last.start);
  }

  lemma {:induction false} InsertFromRaised<T>(data: seq<T>, batchSize: nat, i: nat, db: nat -> WriteOutcome,
                                                 next: nat, maxRetries: int)
    requires batchSize > 0
    requires InsertFrom(data, batchSize, i, db, next, maxRetries).status.Raised?
    ensures EndsInFailure(InsertFrom(data, batchSize, i, db, next, maxRetries), i)
    decreases |data| - i
  {
    assert i < |data|;
    var rows := data[i .. Min(i + batchSize, |data|)];
    var batch := RetryLoop(rows, i, db, next, 0, maxRetries);
    InsertFromStep(data, batchSize, i, db, next, maxRetries);
    var r := InsertFrom(data, batchSize, i, db, next, maxRetries);
    if batch.status.Raised? {
      RetryLoopLast(rows, i, db, next, maxRetries);
    } else {
      var rest := InsertFrom(data, batchSize, i + batchSize, db, next + batch.used, maxRetries);
      InsertFromRaised(data, batchSize, i + batchSize, db, next + batch.used, maxRetries);
      RetryLoopStarts(rows, i, db, next, maxRetries);
      EndsInFailureAfter(batch.events, r.used, rest, i, i + batchSize);
      assert r == Run(rest.status, batch.events + rest.events, r.used);
    }
  }

  /** A raised database error is the outcome of the last attempt, and no
      attempt was made on any batch after the failing one. */
  lemma BulkInsertStopsAtError<T>(data: seq<T>, batchSize: int, maxRetries: int, db: nat -> WriteOutcome)
    requires BulkInsert(data, batchSize, maxRetries, db).status.Raised?
    ensures var r := BulkInsert(data, batchSize, maxRetries, db);
      || (batchSize == 0 && r.status.error == BadBatchSize && r.events == [])
      || (&& batchSize > 0
          && r.events != []
          && r.events[|r.events| - 1].Attempt?
          && r.status.error == WriteFailed(r.events[|r.events| - 1].outcome)
          && AttemptsBetween(r.events, 0, r.events[|r.events| - 1].start))
  {
    if batchSize > 0 {
      InsertFromRaised(data, batchSize, 0, db, 0, maxRetries);
    }
  }

  // ----- delete_rows

  function DeleteQuery(tableName: string, condition: string): (q: string)
    ensures |q| == 20 + |tableName| + |condition|
  {
    "DELETE FROM " + tableName + " WHERE " + condition + ";"
  }

  /** Reads a DELETE statement back into its table and condition: the table
      runs up to the first space after the keyword. */
  function ParseDelete(q: string): Option<(string, string)>
  {
    if |q| < 20 || q[..12] != "DELETE FROM " || q[|q| - 1] != ';' then None
    else
      var rest := q[12 .. |q| - 1];
      var n := FirstSpace(rest);
      if n + 7 <= |rest| && rest[n .. n + 7] == " WHERE " then Some((rest[..n], rest[n + 7..])) else None
  }

  function FirstSpace(s: string): (n: nat)
    ensures n <= |s|
    ensures forall k :: 0 <= k < n ==> s[k] != ' '
    ensures n < |s| ==> s[n] == ' '
  {
    if s == [] || s[0] == ' ' then 0 else 1 + FirstSpace(s[1..])
  }

  /** A table name without spaces and any condition survive the query. */
  lemma DeleteQueryRoundTrip(tableName: string, condition: string)
    requires forall k :: 0 <= k < |tableName| ==> tableName[k] != ' '
    ensures ParseDelete(DeleteQuery(tableName, condition)) == Some((tableName, condition))
  {
    var q := DeleteQuery(tableName, condition);
    var rest := q[12 .. |q| - 1];
    assert q[..12] == "DELETE FROM ";
    assert rest == tableName + " WHERE " + condition;
    FirstSpaceOf(tableName, " WHERE " + condition);
    var n := |tableName|;
    assert rest[n .. n + 7] == " WHERE ";
    assert rest[..n] == tableName;
    assert rest[n + 7..] == condition;
  }

  lemma {:induction false} FirstSpaceOf(a: string, b: string)
    requires forall k :: 0 <= k < |a| ==> a[k] != ' '
    requires b != [] && b[0] == ' '
    ensures FirstSpace(a + b) == |a|
  {
    if a != [] {
      assert (a + b)[1..] == a[1..] + b;
      FirstSpaceOf(a[1..], b);
    }
  }

  /** delete_rows: the one statement it executes. */
  method DeleteRows(tableName: string, condition: string) returns (query: string)
    ensures query == DeleteQuery(tableName, condition)
    ensures query[..12] == "DELETE FROM " && query[|query| - 1] == ';'
    ensures (forall k :: 0 <= k < |tableName| ==> tableName[k] != ' ') ==> ParseDelete(query) == Some((tableName, condition))
  {
    query := DeleteQuery(tableName, condition);
    if forall k :: 0 <= k < |tableName| ==> tableName[k] != ' ' {
      DeleteQueryRoundTrip(tableName, condition);
    }
  }

  // ----- the progress line printed after each batch

  /** As written: "Inserted batch {i // batch_size + 1}/{len(data) // batch_size + 1}". */
  function ProgressAsWritten(i: nat, n: nat, batchSize: nat): (nat, nat)
    requires batchSize > 0
  {
    (i / batchSize + 1, n / batchSize + 1)
  }

  /** 1000 rows in batches of 500 are two batches, but the line announces three. */
  lemma ProgressAsWrittenOverCounts()
    ensures ProgressAsWritten(500, 1000, 500) == (2, 3)
    ensures |Chunks(seq(1000, k => k), 500)| == 2
  {
    ChunksCount(seq(1000, k => k), 500);
  }

  /** Corrected: the total is the number of batches, ceil(len(data) / batch_size). */
  function ProgressLabel(i: nat, n: nat, batchSize: nat): (nat, nat)
    requires batchSize > 0
  {
    (i / batchSize + 1, ChunkCount(n, batchSize))
  }

  /** The batch starting at row k * batch_size is announced as batch k + 1 of
      the number of batches there are; the last as K of K. */
  lemma ProgressLabelCounts<T>(data: seq<T>, batchSize: nat, k: nat)
    requires batchSize > 0 && k < |Chunks(data, batchSize)|
    ensures ProgressLabel(k * batchSize, |data|, batchSize) == (k + 1, |Chunks(data, batchSize)|)
  {
    DivUnique(k * batchSize, batchSize, k);
    ChunksCount(data, batchSize);
  }
}
