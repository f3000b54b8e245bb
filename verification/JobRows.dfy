/** What enqueuing, claiming and ending a job leave on its row, column by column. */
module JobRows {
  import opened Wrappers
  import opened Clock
  import opened Runs
  import opened Jobs

  /** Waiting, or left behind by a worker whose lease is over; due, and with an attempt left. */
  ghost predicate Due(j: Job, now: Time) {
    && (j.status == Pending || j.status == Retry || j.status == Processing)
    && j.nextAttemptAt <= now && (j.lockedUntil == None || j.lockedUntil.value < now) && j.attempts < j.maxAttempts
  }

  /** A new job is due at once and has five attempts. */
  lemma EnqueuedRow(w: World, key: string, at: Time)
    requires w.clock <= at
    ensures var queued := exists i :: 0 <= i < |w.entries| && w.entries[i].job.key == key;
      Step(w, Enqueue(key, at)).entries ==
        if queued then w.entries else w.entries + [Entry(Job(key, Pending, 0, 5, at, None), map[], [], 0)]
  {
  }

  /** The entry of a claimed row: processing for two minutes, one attempt further, which is in the worker's hands. */
  ghost predicate ClaimedAt(e: Entry, e': Entry, at: Time) {
    e' == Entry(Job(e.job.key, Processing, e.job.attempts + 1, e.job.maxAttempts, e.job.nextAttemptAt,
                    Some(at + 120_000_000)),
                e.held[e.job.attempts + 1 := Ticket(at + 120_000_000, Waiting)], e.started, e.succeeded)
  }

  lemma BatchIsDue(w: World, limit: nat, locked: set<nat>, at: Time, i: nat)
    requires i in Batch(w, limit, locked, at) && i < |w.entries|
    ensures Due(w.entries[i].job, at) && i !in locked
  {
    PickedIsEarliestDue(Rows(w.entries), limit, locked, at);
    var ids := Batch(w, limit, locked, at);
    var k :| 0 <= k < |ids| && ids[k] == i;
    assert Eligible(Rows(w.entries)[ids[k]], at);
  }

  lemma TakenRow(es: seq<Entry>, ids: seq<nat>, at: Time, i: nat)
    requires i < |es|
    ensures if i in ids then ClaimedAt(es[i], Taken(es, ids, at)[i], at) else Taken(es, ids, at)[i] == es[i]
  {
  }

  /** A claim takes rows that are due and not locked, and leaves the others as they are. */
  lemma ClaimedRows(w: World, limit: nat, locked: set<nat>, at: Time, i: nat)
    requires w.clock <= at && i < |w.entries|
    ensures var w', ids := Step(w, Claim(limit, locked, at)), Batch(w, limit, locked, at);
      && |w'.entries| == |w.entries|
      && (i in ids ==> Due(w.entries[i].job, at) && i !in locked && ClaimedAt(w.entries[i], w'.entries[i], at))
      && (i !in ids ==> w'.entries[i] == w.entries[i])
  {
    TakenRow(w.entries, Batch(w, limit, locked, at), at, i);
    if i in Batch(w, limit, locked, at) {
      BatchIsDue(w, limit, locked, at, i);
    }
  }

  /** How the attempt ended. */
  function EndStatus(row: Job, ok: bool): Status {
    if ok then Completed else if row.attempts < row.maxAttempts then Retry else DeadLetter
  }

  /** The wait before the next attempt, in seconds. */
  function Backoff(attempts: nat): nat {
    if attempts < 9 then [1, 2, 4, 8, 16, 32, 64, 128, 256][attempts] else 300
  }

  lemma BackoffIsDelay(attempts: nat)
    ensures Delay(attempts) == Backoff(attempts)
  {
    DelayDoublesToTheCap(attempts);
    if attempts < 9 {
      assert Pow2(2) == 4 && Pow2(1) == 2;
      assert Pow2(4) == 16 && Pow2(3) == 8;
      assert Pow2(6) == 64 && Pow2(5) == 32;
      assert Pow2(8) == 256 && Pow2(7) == 128;
    }
  }

  /**
   The end of an attempt.  A column is written when it differs from the row as it was loaded: completed or out of
   attempts or to be retried after its wait, and free; other columns are as they have become in the meantime.
   */
  lemma EndedRow(w: World, id: nat, attempt: nat, at: Time, row: Job, ok: bool)
    requires w.clock <= at && id < |w.entries| && attempt in w.entries[id].held
    requires w.entries[id].held[attempt].stage == Loaded(row, ok)
    ensures var e, w' := w.entries[id], Step(w, Write(id, attempt, at));
            var due := at + Backoff(row.attempts) * 1_000_000;
      && w'.entries == w.entries[id := w'.entries[id]]
      && w'.entries[id] == Entry(
           Job(e.job.key,
               if row.status == EndStatus(row, ok) then e.job.status else EndStatus(row, ok),
               e.job.attempts, e.job.maxAttempts,
               if EndStatus(row, ok) == Retry && row.nextAttemptAt != due then due else e.job.nextAttemptAt,
               if row.lockedUntil == None then e.job.lockedUntil else None),
           e.held - {attempt}, e.started, e.succeeded + if ok then 1 else 0)
  {
    BackoffIsDelay(row.attempts);
  }

  /** When nobody came between load and write, the row says how the attempt ended. */
  lemma EndedUndisturbed(w: World, id: nat, attempt: nat, at: Time, ok: bool)
    requires w.clock <= at && id < |w.entries| && attempt in w.entries[id].held
    requires w.entries[id].held[attempt].stage == Loaded(w.entries[id].job, ok)
    ensures var j, j' := w.entries[id].job, Step(w, Write(id, attempt, at)).entries[id].job;
      && j'.status == EndStatus(j, ok) && j'.lockedUntil == None
      && (j'.status == Retry ==> j'.nextAttemptAt == at + Backoff(j.attempts) * 1_000_000)
      && (j'.status != Retry ==> j'.nextAttemptAt == j.nextAttemptAt)
  {
    EndedRow(w, id, attempt, at, w.entries[id].job, ok);
  }
}
