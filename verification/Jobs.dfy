/**
 The pipeline job queue: leased claims with bounded attempts, retries with backoff, and workers that may
 crash or come back after their lease has run out.  A row's id is its position in the table.
 */
module Jobs {
  import opened Wrappers
  import opened Clock
  import opened Runs
  import opened Attempts

  datatype Status = Pending | Processing | Retry | Completed | DeadLetter

  datatype Job = Job(key: string, status: Status, attempts: nat, maxAttempts: nat,
                     nextAttemptAt: Time, lockedUntil: Option<Time>)

  const LEASE: Time := 120 * SECOND
  const DEFAULT_MAX_ATTEMPTS: nat := 5
  const MAX_DELAY: nat := 300

  // ----- the rows -----

  /** One job per grievance, stage and suffix. */
  function KeyOf(grievance: string, stage: string, suffix: string): string {
    "grievance:" + grievance + ":" + stage + if suffix == "" then "" else ":" + suffix
  }

  /** Text before the first colon is all there is to tell two such texts apart by their first part. */
  lemma FirstPart(a: string, x: string, b: string, y: string)
    requires ':' !in a && ':' !in b && a + ":" + x == b + ":" + y
    ensures a == b && x == y
  {
    var s := a + ":" + x;
    assert s == b + ":" + y;
    assert s[|a|] == ':' && s[|b|] == ':';
    assert forall k :: 0 <= k < |a| ==> s[k] == a[k] && a[k] in a;
    assert forall k :: 0 <= k < |b| ==> s[k] == b[k] && b[k] in b;
    assert a == s[..|a|] && b == s[..|b|];
    assert x == s[|a| + 1..] && y == s[|b| + 1..];
  }

  /** Different work has different keys, so a job is left out only when the same work is queued already. */
  lemma KeysTellJobsApart(g1: string, s1: string, x1: string, g2: string, s2: string, x2: string)
    requires ':' !in g1 && ':' !in g2 && ':' !in s1 && ':' !in s2
    ensures KeyOf(g1, s1, x1) == KeyOf(g2, s2, x2) <==> g1 == g2 && s1 == s2 && x1 == x2
  {
    if KeyOf(g1, s1, x1) == KeyOf(g2, s2, x2) {
      var t1 := s1 + if x1 == "" then "" else ":" + x1;
      var t2 := s2 + if x2 == "" then "" else ":" + x2;
      var p := "grievance:";
      assert KeyOf(g1, s1, x1) == p + (g1 + ":" + t1) && KeyOf(g2, s2, x2) == p + (g2 + ":" + t2);
      assert g1 + ":" + t1 == KeyOf(g1, s1, x1)[|p|..] == KeyOf(g2, s2, x2)[|p|..] == g2 + ":" + t2;
      FirstPart(g1, t1, g2, t2);
      assert s1 + ":" + x1 == if x1 == "" then t1 + ":" else t1;
      assert s2 + ":" + x2 == if x2 == "" then t2 + ":" else t2;
      assert x1 != "" ==> t1[|s1|] == ':';
      assert x2 != "" ==> t2[|s2|] == ':';
      assert x1 == "" <==> x2 == "";
      FirstPart(s1, x1, s2, x2);
    }
  }

  function NewJob(key: string, now: Time): Job {
    Job(key, Pending, 0, DEFAULT_MAX_ATTEMPTS, now, None)
  }

  /** A processing row counts once its lease has run out: its worker died. */
  predicate Eligible(j: Job, now: Time) {
    && j.status in {Pending, Retry, Processing}
    && j.nextAttemptAt <= now
    && (j.lockedUntil.None? || j.lockedUntil.value < now)
    && j.attempts < j.maxAttempts
  }

  function Claimed(j: Job, now: Time): Job {
    j.(status := Processing, lockedUntil := Some(now + LEASE), attempts := j.attempts + 1)
  }

  function Done(j: Job): Job {
    j.(status := Completed, lockedUntil := None)
  }

  function Pow2(n: nat): nat {
    if n == 0 then 1 else 2 * Pow2(n - 1)
  }

  function Min(a: nat, b: nat): nat { if a < b then a else b }

  /** Seconds until the next attempt. */
  function Delay(attempts: nat): nat {
    Min(MAX_DELAY, Pow2(attempts))
  }

  /** What a failure writes, computed from the row as the worker loaded it. */
  function GaveUp(j: Job, now: Time): Job {
    if j.attempts >= j.maxAttempts then j.(status := DeadLetter, lockedUntil := None)
    else j.(status := Retry, lockedUntil := None, nextAttemptAt := now + Delay(j.attempts) * SECOND)
  }

  /**
   Loading and writing are two statements without a lock.  The write covers the columns that differ from
   the loaded row and leaves the others as they are by then.
   */
  function Flushed(current: Job, loaded: Job, wanted: Job): Job {
    current.(status := if wanted.status != loaded.status then wanted.status else current.status,
             lockedUntil := if wanted.lockedUntil != loaded.lockedUntil then wanted.lockedUntil else current.lockedUntil,
             nextAttemptAt := if wanted.nextAttemptAt != loaded.nextAttemptAt then wanted.nextAttemptAt
                              else current.nextAttemptAt)
  }

  // ----- the claim query -----

  /** Insert an id behind those due no later. */
  function Insert(jobs: seq<Job>, ids: seq<nat>, i: nat): seq<nat>
    requires i < |jobs| && forall k :: 0 <= k < |ids| ==> ids[k] < |jobs|
  {
    if ids == [] || jobs[ids[|ids| - 1]].nextAttemptAt <= jobs[i].nextAttemptAt then ids + [i]
    else Insert(jobs, ids[..|ids| - 1], i) + [ids[|ids| - 1]]
  }

  /** The eligible rows among the first `n` that no other transaction has locked, earliest due first. */
  function Queue(jobs: seq<Job>, n: nat, locked: set<nat>, now: Time): (ids: seq<nat>)
    requires n <= |jobs|
    ensures forall k :: 0 <= k < |ids| ==> ids[k] < |jobs|
  {
    if n == 0 then []
    else
      var before := Queue(jobs, n - 1, locked, now);
      if Eligible(jobs[n - 1], now) && n - 1 !in locked then
        InsertIds(jobs, before, n - 1);
        Insert(jobs, before, n - 1)
      else before
  }

  lemma {:induction false} InsertIds(jobs: seq<Job>, ids: seq<nat>, i: nat)
    requires i < |jobs| && forall k :: 0 <= k < |ids| ==> ids[k] < |jobs|
    ensures |Insert(jobs, ids, i)| == |ids| + 1
    ensures forall x :: x in Insert(jobs, ids, i) <==> x == i || x in ids
    ensures forall k :: 0 <= k < |Insert(jobs, ids, i)| ==> Insert(jobs, ids, i)[k] < |jobs|
  {
    if ids != [] {
      assert ids == ids[..|ids| - 1] + [ids[|ids| - 1]];
      InsertIds(jobs, ids[..|ids| - 1], i);
    }
    assert forall k :: 0 <= k < |Insert(jobs, ids, i)| ==> Insert(jobs, ids, i)[k] in Insert(jobs, ids, i);
  }

  predicate InOrder(jobs: seq<Job>, ids: seq<nat>) {
    && (forall k :: 0 <= k < |ids| ==> ids[k] < |jobs|)
    && (forall j, k :: 0 <= j < k < |ids| ==> Before(jobs, ids[j], ids[k]))
  }

  predicate Before(jobs: seq<Job>, i: nat, j: nat) {
    i != j && i < |jobs| && j < |jobs| && jobs[i].nextAttemptAt <= jobs[j].nextAttemptAt
  }

  lemma Appended(jobs: seq<Job>, ids: seq<nat>, last: nat)
    requires InOrder(jobs, ids) && last < |jobs| && forall k :: 0 <= k < |ids| ==> Before(jobs, ids[k], last)
    ensures InOrder(jobs, ids + [last])
  {
  }

  lemma {:induction false} InsertKeepsOrder(jobs: seq<Job>, ids: seq<nat>, i: nat)
    requires i < |jobs| && InOrder(jobs, ids) && i !in ids
    ensures InOrder(jobs, Insert(jobs, ids, i))
    decreases |ids|
  {
    InsertIds(jobs, ids, i);
    if ids == [] {
      Appended(jobs, ids, i);
    } else {
      var init, last := ids[..|ids| - 1], ids[|ids| - 1];
      assert ids == init + [last] && last in ids;
      assert forall k :: 0 <= k < |init| ==> init[k] == ids[k] && Before(jobs, ids[k], last) && ids[k] in ids;
      if jobs[last].nextAttemptAt <= jobs[i].nextAttemptAt {
        Appended(jobs, ids, i);
      } else {
        InsertKeepsOrder(jobs, init, i);
        InsertIds(jobs, init, i);
        var rest := Insert(jobs, init, i);
        forall k | 0 <= k < |rest| ensures Before(jobs, rest[k], last) {
          assert rest[k] in rest;
        }
        Appended(jobs, rest, last);
      }
    }
  }

  lemma {:induction false} QueueIsEligible(jobs: seq<Job>, n: nat, locked: set<nat>, now: Time)
    requires n <= |jobs|
    ensures forall i :: i in Queue(jobs, n, locked, now) <==> 0 <= i < n && Eligible(jobs[i], now) && i !in locked
  {
    if n > 0 {
      QueueIsEligible(jobs, n - 1, locked, now);
      if Eligible(jobs[n - 1], now) && n - 1 !in locked {
        InsertIds(jobs, Queue(jobs, n - 1, locked, now), n - 1);
      }
    }
  }

  lemma {:induction false} QueueIsInOrder(jobs: seq<Job>, n: nat, locked: set<nat>, now: Time)
    requires n <= |jobs|
    ensures InOrder(jobs, Queue(jobs, n, locked, now))
  {
    if n > 0 {
      QueueIsInOrder(jobs, n - 1, locked, now);
      QueueIsEligible(jobs, n - 1, locked, now);
      if Eligible(jobs[n - 1], now) && n - 1 !in locked {
        InsertKeepsOrder(jobs, Queue(jobs, n - 1, locked, now), n - 1);
      }
    }
  }

  /** The rows a claim takes, in the order in which it returns them. */
  function Picked(jobs: seq<Job>, limit: nat, locked: set<nat>, now: Time): (ids: seq<nat>)
    ensures forall k :: 0 <= k < |ids| ==> ids[k] < |jobs|
  {
    var queue := Queue(jobs, |jobs|, locked, now);
    queue[..Min(limit, |queue|)]
  }

  /**
   A claim takes eligible rows only, none twice and none that another worker's lease still covers,
   earliest due first; an eligible unlocked row is passed over only for a full batch of rows due no later.
   */
  lemma PickedIsEarliestDue(jobs: seq<Job>, limit: nat, locked: set<nat>, now: Time)
    ensures var ids := Picked(jobs, limit, locked, now);
      && InOrder(jobs, ids) && |ids| <= limit
      && (forall k :: 0 <= k < |ids| ==> Eligible(jobs[ids[k]], now) && ids[k] !in locked)
      && (forall i :: 0 <= i < |jobs| && Eligible(jobs[i], now) && i !in locked && i !in ids ==>
            |ids| == limit && forall k :: 0 <= k < |ids| ==> jobs[ids[k]].nextAttemptAt <= jobs[i].nextAttemptAt)
  {
    QueueIsInOrder(jobs, |jobs|, locked, now);
    QueueIsEligible(jobs, |jobs|, locked, now);
    var queue, ids := Queue(jobs, |jobs|, locked, now), Picked(jobs, limit, locked, now);
    forall k | 0 <= k < |ids| ensures Eligible(jobs[ids[k]], now) && ids[k] !in locked {
      assert ids[k] == queue[k] && queue[k] in queue;
    }
    forall i | 0 <= i < |jobs| && Eligible(jobs[i], now) && i !in locked && i !in ids
      ensures |ids| == limit && forall k :: 0 <= k < |ids| ==> jobs[ids[k]].nextAttemptAt <= jobs[i].nextAttemptAt
    {
      assert i in queue;
      var at :| 0 <= at < |queue| && queue[at] == i;
      assert at >= |ids|;
    }
  }

  // ----- the system -----

  /** The work has not begun; is under way; is over, and the row loaded to write how it ended. */
  datatype Stage = Waiting | Running | Loaded(row: Job, ok: bool)

  /** An attempt in a worker's hands: when its lease ends, and how far it is. */
  datatype Ticket = Ticket(lease: Time, stage: Stage)

  /**
   A row with what is known only outside the table: the attempts that workers hold, by number; the
   attempts whose work has begun; and how many of them succeeded.
   */
  datatype Entry = Entry(job: Job, held: map<nat, Ticket>, started: seq<nat>, succeeded: nat)

  datatype World = World(clock: Time, entries: seq<Entry>)

  /** Every time an event reads the clock it reads `at`, or the latest reading so far if that is later. */
  datatype Event =
    | Tick(at: Time)
    | Enqueue(key: string, at: Time)
    | Claim(limit: nat, locked: set<nat>, at: Time)
    | Start(id: nat, attempt: nat)
    | Load(id: nat, attempt: nat, ok: bool)
    | Write(id: nat, attempt: nat, at: Time)
    | Crash(id: nat, attempt: nat)

  function Later(a: Time, b: Time): Time { if a < b then b else a }

  function Rows(es: seq<Entry>): (jobs: seq<Job>)
    ensures |jobs| == |es| && forall i :: 0 <= i < |es| ==> jobs[i] == es[i].job
  {
    seq(|es|, i requires 0 <= i < |es| => es[i].job)
  }

  predicate HasKey(es: seq<Entry>, key: string) {
    exists i :: 0 <= i < |es| && es[i].job.key == key
  }

  function TakenBy(e: Entry, now: Time): Entry {
    Entry(Claimed(e.job, now), e.held[e.job.attempts + 1 := Ticket(now + LEASE, Waiting)], e.started, e.succeeded)
  }

  function Begun(e: Entry, attempt: nat): Entry {
    if attempt in e.held && e.held[attempt].stage.Waiting?
    then e.(held := e.held[attempt := e.held[attempt].(stage := Running)], started := e.started + [attempt])
    else e
  }

  function Read(e: Entry, attempt: nat, ok: bool): Entry {
    if attempt in e.held && e.held[attempt].stage.Running?
    then e.(held := e.held[attempt := e.held[attempt].(stage := Loaded(e.job, ok))])
    else e
  }

  function Wanted(loaded: Stage, now: Time): Job
    requires loaded.Loaded?
  {
    if loaded.ok then Done(loaded.row) else GaveUp(loaded.row, now)
  }

  /** The write does not ask whether the worker's lease still runs. */
  function Ended(e: Entry, attempt: nat, now: Time): Entry {
    if attempt in e.held && e.held[attempt].stage.Loaded?
    then
      var s := e.held[attempt].stage;
      e.(job := Flushed(e.job, s.row, Wanted(s, now)), held := e.held - {attempt},
         succeeded := if s.ok then e.succeeded + 1 else e.succeeded)
    else e
  }

  function Gone(e: Entry, attempt: nat): Entry {
    e.(held := e.held - {attempt})
  }

  function Batch(w: World, limit: nat, locked: set<nat>, now: Time): seq<nat> {
    Picked(Rows(w.entries), limit, locked, now)
  }

  /** The rows `ids` are taken, the others stay as they are. */
  function Taken(es: seq<Entry>, ids: seq<nat>, now: Time): (taken: seq<Entry>)
    ensures |taken| == |es|
    ensures forall i :: 0 <= i < |es| ==> taken[i] == if i in ids then TakenBy(es[i], now) else es[i]
  {
    seq(|es|, i requires 0 <= i < |es| => if i in ids then TakenBy(es[i], now) else es[i])
  }

  function Step(w: World, e: Event): World {
    match e
    case Tick(at) => w.(clock := Later(w.clock, at))
    case Enqueue(key, at) =>
      var now := Later(w.clock, at);
      World(now, if HasKey(w.entries, key) then w.entries
                 else w.entries + [Entry(NewJob(key, now), map[], [], 0)])
    case Claim(limit, locked, at) =>
      var now := Later(w.clock, at);
      var ids := Batch(w, limit, locked, now);
      World(now, Taken(w.entries, ids, now))
    case Start(id, attempt) =>
      if id < |w.entries| then w.(entries := w.entries[id := Begun(w.entries[id], attempt)]) else w
    case Load(id, attempt, ok) =>
      if id < |w.entries| then w.(entries := w.entries[id := Read(w.entries[id], attempt, ok)]) else w
    case Write(id, attempt, at) =>
      var now := Later(w.clock, at);
      World(now, if id < |w.entries| then w.entries[id := Ended(w.entries[id], attempt, now)] else w.entries)
    case Crash(id, attempt) =>
      if id < |w.entries| then w.(entries := w.entries[id := Gone(w.entries[id], attempt)]) else w
  }

  ghost predicate Initial(w: World) { w.entries == [] }

  // ----- what every run keeps -----

  predicate StatusOk(j: Job) {
    && 0 < j.maxAttempts && j.attempts <= j.maxAttempts
    && (j.status == Pending <==> j.attempts == 0)
    && (j.status == DeadLetter ==> j.attempts == j.maxAttempts)
  }

  /** A loaded row is an earlier version of the row. */
  predicate StageOk(j: Job, s: Stage) {
    s.Loaded? ==> 1 <= s.row.attempts <= j.attempts && s.row.maxAttempts == j.maxAttempts
  }

  /** Every attempt has a number of its own, begins at most once and succeeds at most once. */
  ghost predicate EntryOk(e: Entry) {
    && StatusOk(e.job)
    && Distinct(e.started)
    && (forall a :: a in e.started ==> 1 <= a <= e.job.attempts)
    && (forall a :: a in e.held ==>
          1 <= a <= e.job.attempts && (e.held[a].stage.Waiting? <==> a !in e.started) && StageOk(e.job, e.held[a].stage))
    && e.succeeded + |AtWork(e)| <= |e.started|
  }

  /** The attempts whose work has begun and is not yet written off. */
  function AtWork(e: Entry): set<nat> {
    set a | a in e.held && !e.held[a].stage.Waiting?
  }

  ghost predicate Inv(w: World) {
    && (forall i :: 0 <= i < |w.entries| ==> EntryOk(w.entries[i]))
    && (forall i, j :: 0 <= i < j < |w.entries| ==> w.entries[i].job.key != w.entries[j].job.key)
  }

  lemma TakenIsOk(e: Entry, now: Time)
    requires EntryOk(e) && Eligible(e.job, now)
    ensures EntryOk(TakenBy(e, now))
  {
    assert e.job.attempts + 1 !in e.held;
    assert AtWork(TakenBy(e, now)) == AtWork(e);
  }

  lemma BegunIsOk(e: Entry, attempt: nat)
    requires EntryOk(e)
    ensures EntryOk(Begun(e, attempt))
  {
    if attempt in e.held && e.held[attempt].stage.Waiting? {
      assert AtWork(Begun(e, attempt)) == AtWork(e) + {attempt};
    }
  }

  lemma ReadIsOk(e: Entry, attempt: nat, ok: bool)
    requires EntryOk(e)
    ensures EntryOk(Read(e, attempt, ok))
  {
    assert AtWork(Read(e, attempt, ok)) == AtWork(e);
  }

  lemma FlushedIsOk(current: Job, s: Stage, now: Time)
    requires StatusOk(current) && s.Loaded? && StageOk(current, s)
    ensures StatusOk(Flushed(current, s.row, Wanted(s, now)))
  {
  }

  lemma EndedIsOk(e: Entry, attempt: nat, now: Time)
    requires EntryOk(e)
    ensures EntryOk(Ended(e, attempt, now))
  {
    if attempt in e.held && e.held[attempt].stage.Loaded? {
      FlushedIsOk(e.job, e.held[attempt].stage, now);
      assert AtWork(Ended(e, attempt, now)) == AtWork(e) - {attempt};
      assert attempt in AtWork(e);
    }
  }

  lemma GoneIsOk(e: Entry, attempt: nat)
    requires EntryOk(e)
    ensures EntryOk(Gone(e, attempt))
  {
    assert AtWork(Gone(e, attempt)) == AtWork(e) - {attempt};
    SmallerSet(AtWork(Gone(e, attempt)), AtWork(e));
  }

  lemma {:induction false} SmallerSet(a: set<nat>, b: set<nat>)
    requires a <= b
    ensures |a| <= |b|
  {
    if x :| x in a { SmallerSet(a - {x}, b - {x}); }
  }

  lemma BatchIsEligible(w: World, limit: nat, locked: set<nat>, now: Time)
    ensures forall i :: i in Batch(w, limit, locked, now) ==>
              i < |w.entries| && Eligible(w.entries[i].job, now) && i !in locked
  {
    PickedIsEarliestDue(Rows(w.entries), limit, locked, now);
  }

  /** What one step may do to one row. */
  lemma StepOnRow(w: World, e: Event, i: nat)
    requires i < |w.entries|
    ensures var w' := Step(w, e); var now := w'.clock;
      && |w.entries| <= |w'.entries| && w.clock <= now
      && (|| w'.entries[i] == w.entries[i]
          || (Eligible(w.entries[i].job, now) && w'.entries[i] == TakenBy(w.entries[i], now))
          || (e.Start? && e.id == i && w'.entries[i] == Begun(w.entries[i], e.attempt))
          || (e.Load? && e.id == i && w'.entries[i] == Read(w.entries[i], e.attempt, e.ok))
          || (e.Write? && e.id == i && w'.entries[i] == Ended(w.entries[i], e.attempt, now))
          || (e.Crash? && e.id == i && w'.entries[i] == Gone(w.entries[i], e.attempt)))
  {
    if e.Claim? { BatchIsEligible(w, e.limit, e.locked, Later(w.clock, e.at)); }
  }

  lemma StepKeepsRow(w: World, e: Event, i: nat)
    requires i < |w.entries| && EntryOk(w.entries[i])
    ensures i < |Step(w, e).entries| && EntryOk(Step(w, e).entries[i])
    ensures Step(w, e).entries[i].job.key == w.entries[i].job.key
  {
    StepOnRow(w, e, i);
    var now := Step(w, e).clock;
    if Eligible(w.entries[i].job, now) { TakenIsOk(w.entries[i], now); }
    match e
    case Start(_, attempt) => BegunIsOk(w.entries[i], attempt);
    case Load(_, attempt, ok) => ReadIsOk(w.entries[i], attempt, ok);
    case Write(_, attempt, _) => EndedIsOk(w.entries[i], attempt, now);
    case Crash(_, attempt) => GoneIsOk(w.entries[i], attempt);
    case _ =>
  }

  lemma StepKeepsInv(w: World, e: Event)
    requires Inv(w)
    ensures Inv(Step(w, e))
  {
    forall i | 0 <= i < |w.entries|
      ensures EntryOk(Step(w, e).entries[i]) && Step(w, e).entries[i].job.key == w.entries[i].job.key
    {
      StepKeepsRow(w, e, i);
    }
    if e.Enqueue? && !HasKey(w.entries, e.key) {
      assert AtWork(Step(w, e).entries[|w.entries|]) == {};
    } else {
      assert |Step(w, e).entries| == |w.entries|;
    }
  }

  lemma RunKeepsInv(w: World, es: seq<Event>)
    requires Inv(w)
    ensures Inv(Run(Step, w, es))
  {
    forall t, e | Inv(t) && Any(t, e) ensures Inv(Step(t, e)) { StepKeepsInv(t, e); }
    AnythingAllowed(Step, w, es);
    Invariance(Step, Any, Inv, w, es);
  }

  /**
   In every run, with any number of workers, crashes and late finishes: attempts never exceed the
   maximum, a dead letter has none left, no two rows are the same work - and the work of one job begins
   at most `maxAttempts` times, each time under an attempt of its own.
   */
  lemma QueueIsSound(w: World, es: seq<Event>, id: nat)
    requires Initial(w)
    ensures var w' := Run(Step, w, es);
      id < |w'.entries| ==>
        var e := w'.entries[id];
        && e.job.attempts <= e.job.maxAttempts && |e.started| <= e.job.attempts && e.succeeded <= |e.started|
        && (e.job.status == Pending <==> e.job.attempts == 0)
        && (e.job.status == DeadLetter ==> e.job.attempts == e.job.maxAttempts)
        && (forall j :: 0 <= j < |w'.entries| && j != id ==> w'.entries[j].job.key != e.job.key)
  {
    RunKeepsInv(w, es);
    var w' := Run(Step, w, es);
    if id < |w'.entries| {
      var e := w'.entries[id];
      assert EntryOk(e);
      DistinctBounded(e.started, e.job.attempts);
    }
  }

  // ----- a write over a row that has moved on -----

  /** A retry has attempts left, and a row has a lease exactly while it is processing. */
  predicate Sound(j: Job) {
    && (j.status == Retry ==> j.attempts < j.maxAttempts)
    && (j.status == Processing <==> j.lockedUntil.Some?)
  }

  /** Nothing was written to the row between the load and the write of how its work ended. */
  predicate UpToDate(w: World, e: Event) {
    e.Write? && e.id < |w.entries| && e.attempt in w.entries[e.id].held
    && w.entries[e.id].held[e.attempt].stage.Loaded? ==>
      w.entries[e.id].held[e.attempt].stage.row == w.entries[e.id].job
  }

  ghost predicate SoundInv(w: World) {
    Inv(w) && forall i :: 0 <= i < |w.entries| ==> Sound(w.entries[i].job)
  }

  lemma StepKeepsSound(w: World, e: Event)
    requires SoundInv(w) && UpToDate(w, e)
    ensures SoundInv(Step(w, e))
  {
    StepKeepsInv(w, e);
    forall i | 0 <= i < |w.entries| ensures Sound(Step(w, e).entries[i].job) { StepOnRow(w, e, i); }
    if !(e.Enqueue? && !HasKey(w.entries, e.key)) {
      assert |Step(w, e).entries| == |w.entries|;
    }
  }

  /** With no write in between, the rows stay sound in every run. */
  lemma RowsAreSound(w: World, es: seq<Event>, id: nat)
    requires Initial(w) && Allowed(Step, UpToDate, w, es)
    ensures var w' := Run(Step, w, es); id < |w'.entries| ==> Sound(w'.entries[id].job)
  {
    forall t, e | SoundInv(t) && UpToDate(t, e) ensures SoundInv(Step(t, e)) { StepKeepsSound(t, e); }
    Invariance(Step, UpToDate, SoundInv, w, es);
  }

  /** The write that ends attempt `a` of row `id`, if the event is one. */
  predicate Writes(w: World, e: Event, id: nat) {
    e.Write? && e.id == id && id < |w.entries| && e.attempt in w.entries[id].held
    && w.entries[id].held[e.attempt].stage.Loaded?
  }

  /**
   Exactly when does a retry come about that has no attempts left?  When a failure is written that was
   loaded with attempts left, and a claim has taken the last one since.
   */
  lemma RetryIsSpentExactlyByAClaimInBetween(w: World, e: Event, id: nat)
    requires Inv(w) && id < |w.entries| && (w.entries[id].job.status == Retry ==> w.entries[id].job.attempts < w.entries[id].job.maxAttempts)
    ensures id < |Step(w, e).entries|
    ensures var was, j := w.entries[id].job, Step(w, e).entries[id].job;
      j.status == Retry && j.attempts == j.maxAttempts <==>
        && Writes(w, e, id)
        && var s := w.entries[id].held[e.attempt].stage;
           !s.ok && s.row.status != Retry && s.row.attempts < was.attempts == was.maxAttempts
  {
    StepOnRow(w, e, id);
    assert EntryOk(w.entries[id]);
    if Writes(w, e, id) {
      assert StageOk(w.entries[id].job, w.entries[id].held[e.attempt].stage);
    }
  }

  /** And when does a lease outlive its processing?  When the row was loaded idle and has been claimed since. */
  lemma LeaseIsLeftExactlyByAClaimInBetween(w: World, e: Event, id: nat)
    requires id < |w.entries| && (w.entries[id].job.status == Processing <==> w.entries[id].job.lockedUntil.Some?)
    requires Writes(w, e, id) ==>
      var r := w.entries[id].held[e.attempt].stage.row; r.status == Processing <==> r.lockedUntil.Some?
    ensures id < |Step(w, e).entries|
    ensures var was, j := w.entries[id].job, Step(w, e).entries[id].job;
      !(j.status == Processing <==> j.lockedUntil.Some?) <==>
        && Writes(w, e, id)
        && var s := w.entries[id].held[e.attempt].stage;
           was.status == Processing && s.row.status != Processing && Wanted(s, Step(w, e).clock).status != s.row.status
  {
    StepOnRow(w, e, id);
  }

  // ----- when a job can never be claimed again -----

  /** Work that may still end as a failure and then puts the row back in the queue. */
  predicate CanReopen(t: Ticket) {
    !(t.stage.Loaded? && (t.stage.ok || t.stage.row.status == Retry))
  }

  /** Its attempts are used up, or it is completed and no worker holds an attempt that can reopen it. */
  predicate Spent(e: Entry) {
    || e.job.attempts == e.job.maxAttempts
    || (e.job.status == Completed && forall a :: a in e.held ==> !CanReopen(e.held[a]))
  }

  lemma SpentStaysSpent(w: World, e: Event, i: nat)
    requires i < |w.entries| && EntryOk(w.entries[i]) && Spent(w.entries[i])
    ensures i < |Step(w, e).entries| && EntryOk(Step(w, e).entries[i]) && Spent(Step(w, e).entries[i])
    ensures Step(w, e).entries[i].job.attempts == w.entries[i].job.attempts
  {
    StepOnRow(w, e, i);
    StepKeepsRow(w, e, i);
  }

  lemma {:induction false} SpentForever(w: World, es: seq<Event>, i: nat)
    requires i < |w.entries| && EntryOk(w.entries[i]) && Spent(w.entries[i])
    ensures var w' := Run(Step, w, es);
      && i < |w'.entries| && EntryOk(w'.entries[i]) && Spent(w'.entries[i])
      && w'.entries[i].job.attempts == w.entries[i].job.attempts
    decreases |es|
  {
    if es != [] {
      SpentForever(w, es[..|es| - 1], i);
      SpentStaysSpent(Run(Step, w, es[..|es| - 1]), es[|es| - 1], i);
    }
  }

  /** A claim large enough takes every row whose time has come. */
  function ClaimAll(w: World, at: Time): Event { Claim(|w.entries|, {}, at) }

  lemma LateClaimTakes(w: World, i: nat) returns (at: Time)
    requires i < |w.entries| && w.entries[i].job.status in {Pending, Retry, Processing}
    requires w.entries[i].job.attempts < w.entries[i].job.maxAttempts
    ensures var w' := Step(w, ClaimAll(w, at));
      i < |w'.entries| && w'.entries[i].job.attempts == w.entries[i].job.attempts + 1
  {
    var j := w.entries[i].job;
    at := Later(Later(w.clock, j.nextAttemptAt), if j.lockedUntil.Some? then j.lockedUntil.value + 1 else w.clock);
    assert Eligible(j, at) && Later(w.clock, at) == at;
    EveryoneFits(Rows(w.entries), at);
    assert i in Batch(w, |w.entries|, {}, at);
  }

  lemma EveryoneFits(jobs: seq<Job>, now: Time)
    ensures forall i :: 0 <= i < |jobs| && Eligible(jobs[i], now) ==> i in Picked(jobs, |jobs|, {}, now)
  {
    PickedIsEarliestDue(jobs, |jobs|, {}, now);
    var ids := Picked(jobs, |jobs|, {}, now);
    forall i | 0 <= i < |jobs| && Eligible(jobs[i], now) ensures i in ids {
      if i !in ids { PigeonHole(ids, i, |jobs|); }
    }
  }

  /** Different numbers below `n`, one of them missing: fewer than `n`. */
  lemma PigeonHole(ids: seq<nat>, missing: nat, n: nat)
    requires forall j, k :: 0 <= j < k < |ids| ==> ids[j] != ids[k]
    requires forall k :: 0 <= k < |ids| ==> ids[k] < n && ids[k] != missing
    requires missing < n
    ensures |ids| < n
  {
    var all := seq(|ids| + 1, k requires 0 <= k <= |ids| => if k < |ids| then ids[k] + 1 else missing + 1);
    DistinctBounded(all, n);
  }

  /** How an attempt that can reopen its row does so. */
  function Failing(i: nat, attempt: nat, stage: Stage, at: Time): seq<Event> {
    (if stage.Waiting? then [Start(i, attempt)] else [])
    + (if stage.Loaded? then [] else [Load(i, attempt, false)])
    + [Write(i, attempt, at)]
  }

  /** A worker's stale failure puts a finished job back in the queue. */
  lemma StaleFailureReopens(w: World, i: nat, attempt: nat)
    requires i < |w.entries| && EntryOk(w.entries[i]) && attempt in w.entries[i].held
    requires CanReopen(w.entries[i].held[attempt]) && w.entries[i].job.status == Completed
    requires w.entries[i].job.attempts < w.entries[i].job.maxAttempts
    ensures var w' := Run(Step, w, Failing(i, attempt, w.entries[i].held[attempt].stage, w.clock));
      && |w'.entries| == |w.entries| && w'.entries[i].job.status == Retry
      && w'.entries[i].job.attempts == w.entries[i].job.attempts
      && w'.entries[i].job.maxAttempts == w.entries[i].job.maxAttempts
  {
    var e := w.entries[i];
    assert StageOk(e.job, e.held[attempt].stage);
    FailingRuns(w, i, attempt);
    match e.held[attempt].stage
    case Loaded(_, _) => WriteReopens(e, attempt, w.clock);
    case Running =>
      assert StageOk(e.job, Loaded(e.job, false));
      WriteReopens(Read(e, attempt, false), attempt, w.clock);
    case Waiting =>
      assert StageOk(e.job, Loaded(e.job, false));
      WriteReopens(Read(Begun(e, attempt), attempt, false), attempt, w.clock);
  }

  lemma WriteReopens(e: Entry, attempt: nat, now: Time)
    requires attempt in e.held && e.held[attempt].stage.Loaded? && !e.held[attempt].stage.ok
    requires e.held[attempt].stage.row.status != Retry && StageOk(e.job, e.held[attempt].stage)
    requires e.job.attempts < e.job.maxAttempts
    ensures var j := Ended(e, attempt, now).job;
      j.status == Retry && j.attempts == e.job.attempts && j.maxAttempts == e.job.maxAttempts
  {
  }

  function Put(w: World, i: nat, e: Entry): World
    requires i < |w.entries|
  {
    w.(entries := w.entries[i := e])
  }

  lemma EndsAt(w: World, i: nat, e: Entry, attempt: nat)
    requires i < |w.entries|
    ensures Step(Put(w, i, e), Write(i, attempt, w.clock)) == Put(w, i, Ended(e, attempt, w.clock))
  {
  }

  lemma LoadsAt(w: World, i: nat, e: Entry, attempt: nat)
    requires i < |w.entries|
    ensures Step(Put(w, i, e), Load(i, attempt, false)) == Put(w, i, Read(e, attempt, false))
  {
  }

  /** The failing run, step by step on its one row. */
  lemma FailingRuns(w: World, i: nat, attempt: nat)
    requires i < |w.entries| && attempt in w.entries[i].held
    ensures var e := w.entries[i]; var stage := e.held[attempt].stage;
      var e1 := if stage.Waiting? then Begun(e, attempt) else e;
      var e2 := if stage.Loaded? then e1 else Read(e1, attempt, false);
      Run(Step, w, Failing(i, attempt, stage, w.clock)) == Put(w, i, Ended(e2, attempt, w.clock))
  {
    var write := Write(i, attempt, w.clock);
    var e := w.entries[i];
    assert Put(w, i, e) == w;
    match e.held[attempt].stage
    case Loaded(_, _) =>
      assert Failing(i, attempt, e.held[attempt].stage, w.clock) == [write];
      RunOne(Step, w, write);
      EndsAt(w, i, e, attempt);
    case Running =>
      RunOne(Step, w, Load(i, attempt, false));
      RunSnoc(Step, w, [Load(i, attempt, false)], write);
      assert Failing(i, attempt, e.held[attempt].stage, w.clock) == [Load(i, attempt, false)] + [write];
      LoadsAt(w, i, e, attempt);
      EndsAt(w, i, Read(e, attempt, false), attempt);
    case Waiting =>
      RunThree(Step, w, Start(i, attempt), Load(i, attempt, false), write);
      assert Failing(i, attempt, e.held[attempt].stage, w.clock)
          == [Start(i, attempt), Load(i, attempt, false), write];
      assert Step(w, Start(i, attempt)) == Put(w, i, Begun(e, attempt));
      LoadsAt(w, i, Begun(e, attempt), attempt);
      EndsAt(w, i, Read(Begun(e, attempt), attempt, false), attempt);
  }

  lemma ClaimableUnlessSpent(w: World, i: nat) returns (es: seq<Event>)
    requires i < |w.entries| && EntryOk(w.entries[i]) && !Spent(w.entries[i])
    ensures var w' := Run(Step, w, es);
      i < |w'.entries| && w'.entries[i].job.attempts > w.entries[i].job.attempts
  {
    if w.entries[i].job.status == Completed {
      var attempt :| attempt in w.entries[i].held && CanReopen(w.entries[i].held[attempt]);
      es := Failing(i, attempt, w.entries[i].held[attempt].stage, w.clock);
      StaleFailureReopens(w, i, attempt);
    } else {
      es := [];
    }
    var w1 := Run(Step, w, es);
    var at := LateClaimTakes(w1, i);
    RunSnoc(Step, w, es, ClaimAll(w1, at));
    es := es + [ClaimAll(w1, at)];
  }

  /**
   A job can be claimed again in some future exactly when attempts remain and it is not completed - or
   is completed while some worker still holds an earlier attempt that can reopen it.
   */
  lemma ClaimableAgainExactly(w: World, id: nat)
    requires Inv(w) && id < |w.entries|
    ensures (exists es :: var w' := Run(Step, w, es);
               id < |w'.entries| && w'.entries[id].job.attempts > w.entries[id].job.attempts)
       <==> w.entries[id].job.attempts < w.entries[id].job.maxAttempts
            && (w.entries[id].job.status != Completed
                || exists a :: a in w.entries[id].held && CanReopen(w.entries[id].held[a]))
  {
    assert EntryOk(w.entries[id]);
    if Spent(w.entries[id]) {
      forall es ensures var w' := Run(Step, w, es);
        id < |w'.entries| && w'.entries[id].job.attempts == w.entries[id].job.attempts { SpentForever(w, es, id); }
    } else {
      var es := ClaimableUnlessSpent(w, id);
    }
  }

  /**
   In the table alone: stuck for good are completed rows, dead letters, a last attempt that crashed, and
   a retry whose last attempt was claimed between a failure's load and its write.
   */
  lemma StuckRows(w: World, id: nat)
    requires Inv(w) && id < |w.entries|
    ensures var j := w.entries[id].job;
      (exists now :: Eligible(j, now)) <==>
        !(j.status == Completed || j.status == DeadLetter
          || (j.status in {Processing, Retry} && j.attempts == j.maxAttempts))
  {
    var j := w.entries[id].job;
    assert EntryOk(w.entries[id]);
    if j.status in {Pending, Retry, Processing} && j.attempts < j.maxAttempts {
      assert Eligible(j, Later(j.nextAttemptAt, if j.lockedUntil.Some? then j.lockedUntil.value + 1 else j.nextAttemptAt));
    }
  }

  /** What takes a job out of completed: a failure written by a worker that had not loaded it as a retry. */
  lemma CompletedIsLeftExactlyByAStaleFailure(w: World, e: Event, id: nat)
    requires id < |w.entries| && w.entries[id].job.status == Completed
    ensures |Step(w, e).entries| >= |w.entries|
    ensures Step(w, e).entries[id].job.status != Completed <==>
      && Writes(w, e, id)
      && var s := w.entries[id].held[e.attempt].stage;
         !s.ok && s.row.status != GaveUp(s.row, Step(w, e).clock).status
  {
    StepOnRow(w, e, id);
  }

  // ----- backoff -----

  lemma {:induction false} Pow2Grows(n: nat)
    ensures Pow2(n + 1) == 2 * Pow2(n) && Pow2(n) >= 1 && (n >= 9 ==> Pow2(n) >= 512)
  {
    if n == 9 {
      assert Pow2(3) == 8;
      assert Pow2(6) == 64;
      assert Pow2(9) == 512;
    } else if n > 0 {
      Pow2Grows(n - 1);
    }
  }

  /** Delays double from attempt to attempt until they reach five minutes, where they stay. */
  lemma DelayDoublesToTheCap(attempts: nat)
    ensures Delay(attempts + 1) == Min(MAX_DELAY, 2 * Delay(attempts))
    ensures 1 <= Delay(attempts) <= MAX_DELAY
    ensures Delay(attempts) == MAX_DELAY <==> attempts >= 9
  {
    Pow2Grows(attempts);
    if attempts < 9 {
      assert Pow2(2) == 4;
      assert Pow2(4) == 16;
      assert Pow2(6) == 64;
      assert Pow2(8) == 256;
    }
  }

  /** A failed job with attempts left is not offered again before its delay is over, and is offered from then on. */
  lemma RetryWaitsItsDelay(j: Job, failedAt: Time, now: Time)
    requires j.attempts < j.maxAttempts
    ensures Eligible(GaveUp(j, failedAt), now) <==> now >= failedAt + Delay(j.attempts) * SECOND
  {
  }
}

/**
 A retry without attempts left does come about: a worker whose fourth attempt failed loads the row, its
 lease over; another worker claims the fifth and last attempt; the first one writes its retry.
 */
module SpentRetry {
  import opened Wrappers
  import opened Clock
  import opened Runs
  import opened Jobs

  function Leased(attempts: nat, clock: Time): Job {
    Job("k", Processing, attempts, DEFAULT_MAX_ATTEMPTS, 0, Some(clock + LEASE))
  }

  /** One job, its attempt number `n` just claimed at `clock`; earlier attempts have crashed. */
  function Held(n: nat, clock: Time): World {
    World(clock, [Entry(Leased(n, clock), map[n := Ticket(clock + LEASE, Waiting)], [], 0)])
  }

  lemma OnlyRowIsPicked(e: Entry, now: Time)
    requires Eligible(e.job, now)
    ensures Picked(Rows([e]), 1, {}, now) == [0]
  {
    assert Rows([e]) == [e.job];
    EveryoneFits(Rows([e]), now);
    PickedIsEarliestDue(Rows([e]), 1, {}, now);
  }

  /** A claim of the one row. */
  lemma OneClaim(clock: Time, e: Entry, now: Time)
    requires clock <= now && Eligible(e.job, now)
    ensures Step(World(clock, [e]), Claim(1, {}, now)) == World(now, [TakenBy(e, now)])
  {
    OnlyRowIsPicked(e, now);
    assert 0 in [0];
    assert Step(World(clock, [e]), Claim(1, {}, now)).entries == [TakenBy(e, now)];
  }

  lemma ClaimAfterACrash(n: nat, clock: Time)
    requires 1 <= n < DEFAULT_MAX_ATTEMPTS && clock >= 0
    ensures var later := clock + LEASE + 1;
      Run(Step, Held(n, clock), [Crash(0, n), Claim(1, {}, later)]) == Held(n + 1, later)
  {
    var later := clock + LEASE + 1;
    var w1 := Step(Held(n, clock), Crash(0, n));
    var e := Entry(Leased(n, clock), map[], [], 0);
    assert w1 == World(clock, [e]);
    RunOne(Step, Held(n, clock), Crash(0, n));
    RunSnoc(Step, Held(n, clock), [Crash(0, n)], Claim(1, {}, later));
    assert [Crash(0, n)] + [Claim(1, {}, later)] == [Crash(0, n), Claim(1, {}, later)];
    OneClaim(clock, e, later);
  }

  lemma FirstAttempt()
    ensures Run(Step, World(0, []), [Enqueue("k", 0), Claim(1, {}, 0)]) == Held(1, 0)
  {
    var w, e := World(0, []), Entry(NewJob("k", 0), map[], [], 0);
    RunOne(Step, w, Enqueue("k", 0));
    RunSnoc(Step, w, [Enqueue("k", 0)], Claim(1, {}, 0));
    assert [Enqueue("k", 0)] + [Claim(1, {}, 0)] == [Enqueue("k", 0), Claim(1, {}, 0)];
    assert Step(w, Enqueue("k", 0)) == World(0, [e]);
    OneClaim(0, e, 0);
  }

  lemma {:induction false} Attempts(n: nat) returns (w: World, es: seq<Event>, clock: Time)
    requires 1 <= n <= DEFAULT_MAX_ATTEMPTS
    ensures Initial(w) && clock >= 0 && Run(Step, w, es) == Held(n, clock)
  {
    if n == 1 {
      w, es, clock := World(0, []), [Enqueue("k", 0), Claim(1, {}, 0)], 0;
      FirstAttempt();
    } else {
      var c;
      w, es, c := Attempts(n - 1);
      ClaimAfterACrash(n - 1, c);
      clock := c + LEASE + 1;
      RunConcat(Step, w, es, [Crash(0, n - 1), Claim(1, {}, clock)]);
      es := es + [Crash(0, n - 1), Claim(1, {}, clock)];
    }
  }

  /** The fourth attempt has run and failed, and its worker has loaded the row. */
  function Failed(clock: Time): Entry {
    Entry(Leased(4, clock), map[4 := Ticket(clock + LEASE, Loaded(Leased(4, clock), false))], [4], 0)
  }

  lemma FourthAttemptFails(clock: Time)
    ensures Run(Step, Held(4, clock), [Start(0, 4), Load(0, 4, false)]) == World(clock, [Failed(clock)])
  {
    var w := Held(4, clock);
    RunOne(Step, w, Start(0, 4));
    RunSnoc(Step, w, [Start(0, 4)], Load(0, 4, false));
    assert [Start(0, 4)] + [Load(0, 4, false)] == [Start(0, 4), Load(0, 4, false)];
    var e1 := Entry(Leased(4, clock), map[4 := Ticket(clock + LEASE, Running)], [4], 0);
    assert Begun(w.entries[0], 4) == e1;
    assert Read(e1, 4, false) == Failed(clock);
  }

  /** The write of its retry, after another worker has claimed the last attempt. */
  lemma LateWrite(clock: Time, later: Time)
    ensures var j := Ended(TakenBy(Failed(clock), later), 4, later).job;
      j.status == Retry && j.attempts == j.maxAttempts
  {
    var e := TakenBy(Failed(clock), later);
    assert e.held[4] == Failed(clock).held[4];
    assert e.job.attempts == 5;
  }

  lemma ARetryWithoutAttempts() returns (w: World, es: seq<Event>)
    ensures Initial(w)
    ensures var w' := Run(Step, w, es);
      && |w'.entries| == 1
      && var j := w'.entries[0].job;
         j.status == Retry && j.attempts == j.maxAttempts && forall now :: !Eligible(j, now)
  {
    var clock;
    w, es, clock := Attempts(4);
    var later := clock + LEASE + 1;
    var tail := [Start(0, 4), Load(0, 4, false), Claim(1, {}, later), Write(0, 4, later)];
    LateFailure(clock);
    RunConcat(Step, w, es, tail);
    es := es + tail;
  }

  lemma LateFailure(clock: Time)
    requires clock >= 0
    ensures var later := clock + LEASE + 1;
      var w' := Run(Step, Held(4, clock), [Start(0, 4), Load(0, 4, false), Claim(1, {}, later), Write(0, 4, later)]);
      && |w'.entries| == 1
      && var j := w'.entries[0].job;
         j.status == Retry && j.attempts == j.maxAttempts && forall now :: !Eligible(j, now)
  {
    var later := clock + LEASE + 1;
    var start, w := [Start(0, 4), Load(0, 4, false)], Held(4, clock);
    FourthAttemptFails(clock);
    OneClaim(clock, Failed(clock), later);
    RunSnoc(Step, w, start, Claim(1, {}, later));
    RunSnoc(Step, w, start + [Claim(1, {}, later)], Write(0, 4, later));
    assert start + [Claim(1, {}, later)] + [Write(0, 4, later)]
        == [Start(0, 4), Load(0, 4, false), Claim(1, {}, later), Write(0, 4, later)];
    LateWrite(clock, later);
  }
}

/** Workers that come back in time: no worker still at work has outlived its lease. */
module PunctualWorkers {
  import opened Wrappers
  import opened Clock
  import opened Runs
  import opened Jobs

  ghost predicate Punctual(w: World) {
    forall i, a :: 0 <= i < |w.entries| && a in w.entries[i].held ==> w.clock <= w.entries[i].held[a].lease
  }

  ghost predicate StaysPunctual(w: World, e: Event) {
    Punctual(Step(w, e))
  }

  /** A worker holding an attempt holds the lease, what it has loaded is current, and a job succeeds once. */
  ghost predicate Owned(e: Entry) {
    && EntryOk(e) && Sound(e.job)
    && (forall a :: a in e.held ==>
          && e.job.status == Processing && e.job.lockedUntil == Some(e.held[a].lease) && a == e.job.attempts
          && (e.held[a].stage.Loaded? ==> e.held[a].stage.row == e.job))
    && e.succeeded == (if e.job.status == Completed then 1 else 0)
  }

  ghost predicate AllOwned(w: World) {
    forall i :: 0 <= i < |w.entries| ==> Owned(w.entries[i])
  }

  /** A row that can be claimed while everyone is punctual is in nobody's hands. */
  lemma NobodyHolds(e: Entry, now: Time)
    requires Owned(e) && Eligible(e.job, now) && forall a :: a in e.held ==> now <= e.held[a].lease
    ensures e.held == map[]
  {
  }

  lemma NewTicket(e: Entry, now: Time, after: Entry)
    requires Owned(e) && Eligible(e.job, now) && after == TakenBy(e, now)
    requires forall a :: a in e.held ==> now <= e.held[a].lease
    ensures Owned(after)
  {
    TakenIsOk(e, now);
    NobodyHolds(e, now);
  }

  lemma LeasesStillRun(e: Entry, after: Entry, now: Time)
    requires EntryOk(e) && after == TakenBy(e, now) && forall a :: a in after.held ==> now <= after.held[a].lease
    ensures forall a :: a in e.held ==> now <= e.held[a].lease
  {
    forall a | a in e.held ensures now <= e.held[a].lease {
      assert after.held[a] == e.held[a];
    }
  }

  lemma StepKeepsOwned(w: World, e: Event, i: nat)
    requires i < |w.entries| && Owned(w.entries[i]) && StaysPunctual(w, e)
    ensures i < |Step(w, e).entries| && Owned(Step(w, e).entries[i])
  {
    StepOnRow(w, e, i);
    StepKeepsRow(w, e, i);
    var w' := Step(w, e);
    if Eligible(w.entries[i].job, w'.clock) && w'.entries[i] == TakenBy(w.entries[i], w'.clock) {
      LeasesStillRun(w.entries[i], w'.entries[i], w'.clock);
      NewTicket(w.entries[i], w'.clock, w'.entries[i]);
    }
  }

  lemma RunKeepsOwned(w: World, es: seq<Event>)
    requires AllOwned(w) && Allowed(Step, StaysPunctual, w, es)
    ensures AllOwned(Run(Step, w, es))
  {
    forall t, e | AllOwned(t) && StaysPunctual(t, e) ensures AllOwned(Step(t, e)) {
      forall i | 0 <= i < |t.entries| ensures Owned(Step(t, e).entries[i]) { StepKeepsOwned(t, e, i); }
      if e.Enqueue? && !HasKey(t.entries, e.key) {
        assert AtWork(Step(t, e).entries[|t.entries|]) == {};
      } else {
        assert |Step(t, e).entries| == |t.entries|;
      }
    }
    Invariance(Step, StaysPunctual, AllOwned, w, es);
  }

  /**
   At most one worker is at work on a job, its work succeeds at most once, nobody works on a completed
   job, a retry has attempts left, and a row has a lease exactly while it is processing.
   */
  lemma OneWorkerOneSuccess(w: World, es: seq<Event>, id: nat)
    requires Initial(w) && Allowed(Step, StaysPunctual, w, es)
    ensures var w' := Run(Step, w, es);
      id < |w'.entries| ==>
        var e := w'.entries[id];
        && (forall a, b :: a in e.held && b in e.held ==> a == b)
        && e.succeeded <= 1 && (e.job.status == Completed <==> e.succeeded == 1)
        && (e.job.status != Processing ==> e.held == map[])
        && Sound(e.job)
  {
    RunKeepsOwned(w, es);
    var w' := Run(Step, w, es);
    if id < |w'.entries| { assert Owned(w'.entries[id]); }
  }

  /** So completed is final. */
  lemma CompletedIsFinal(w: World, es: seq<Event>, fs: seq<Event>, id: nat)
    requires Initial(w) && Allowed(Step, StaysPunctual, w, es)
    requires var w' := Run(Step, w, es); id < |w'.entries| && w'.entries[id].job.status == Completed
    ensures var w' := Run(Step, w, es + fs); id < |w'.entries| && w'.entries[id].job.status == Completed
  {
    RunKeepsOwned(w, es);
    RunConcat(Step, w, es, fs);
    assert Owned(Run(Step, w, es).entries[id]);
    CompletedUnheld(Run(Step, w, es), fs, id);
  }

  lemma {:induction false} CompletedUnheld(w: World, fs: seq<Event>, id: nat)
    requires id < |w.entries| && w.entries[id].job.status == Completed && w.entries[id].held == map[]
    ensures var w' := Run(Step, w, fs);
      id < |w'.entries| && w'.entries[id].job.status == Completed && w'.entries[id].held == map[]
    decreases |fs|
  {
    if fs != [] {
      CompletedUnheld(w, fs[..|fs| - 1], id);
      StepOnRow(Run(Step, w, fs[..|fs| - 1]), fs[|fs| - 1], id);
    }
  }
}
