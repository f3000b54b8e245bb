/** The statements on the job table, and one pass of the worker's loop over the jobs it claimed. */
module JobsDriver {
  import opened Wrappers
  import opened Clock
  import opened Runs
  import opened Jobs

  /** One claimed job in the worker's hands: how it ends, and what others do before, during and between. */
  datatype Work = Work(before: seq<Event>, during: seq<Event>, ok: bool, between: seq<Event>, at: Time)

  type Held = (nat, nat)   // row, attempt

  /** The event is not one of the worker's own for these attempts. */
  predicate NotOn(e: Event, mine: seq<Held>) {
    (e.Start? || e.Load? || e.Write? || e.Crash?) ==> (e.id, e.attempt) !in mine
  }

  ghost predicate OthersOnly(es: seq<Event>, mine: seq<Held>) {
    forall k :: 0 <= k < |es| ==> NotOn(es[k], mine)
  }

  /** Nothing but steps of others goes on around the worker's own. */
  ghost predicate Quiet(work: Work, mine: seq<Held>) {
    OthersOnly(work.before, mine) && OthersOnly(work.during, mine) && OthersOnly(work.between, mine)
  }

  predicate Holds(w: World, h: Held) {
    h.0 < |w.entries| && h.1 in w.entries[h.0].held
  }

  /** The others leave the worker's attempts in its hands as they are. */
  lemma {:induction false} OthersKeepAttempt(w: World, es: seq<Event>, mine: seq<Held>, h: Held)
    requires Inv(w) && OthersOnly(es, mine) && h in mine && Holds(w, h)
    ensures var w' := Run(Step, w, es);
      Inv(w') && Holds(w', h) && w'.entries[h.0].held[h.1] == w.entries[h.0].held[h.1]
    decreases |es|
  {
    if es != [] {
      OthersKeepAttempt(w, es[..|es| - 1], mine, h);
      var t, e := Run(Step, w, es[..|es| - 1]), es[|es| - 1];
      StepKeepsInv(t, e);
      StepOnRow(t, e, h.0);
      assert EntryOk(t.entries[h.0]);
    }
  }

  /** The job's run, with everything others do meanwhile. */
  function Script(h: Held, work: Work): seq<Event> {
    work.before + [Start(h.0, h.1)] + work.during + [Load(h.0, h.1, work.ok)] + work.between + [Write(h.0, h.1, work.at)]
  }

  function AfterJob(w: World, h: Held, work: Work): World {
    var started := Step(Run(Step, w, work.before), Start(h.0, h.1));
    var loaded := Step(Run(Step, started, work.during), Load(h.0, h.1, work.ok));
    Step(Run(Step, loaded, work.between), Write(h.0, h.1, work.at))
  }

  lemma ScriptRuns(w: World, h: Held, work: Work)
    ensures AfterJob(w, h, work) == Run(Step, w, Script(h, work))
  {
    var es1 := work.before + [Start(h.0, h.1)];
    RunSnoc(Step, w, work.before, Start(h.0, h.1));
    RunConcat(Step, w, es1, work.during);
    RunSnoc(Step, w, es1 + work.during, Load(h.0, h.1, work.ok));
    var es2 := es1 + work.during + [Load(h.0, h.1, work.ok)];
    RunConcat(Step, w, es2, work.between);
    RunSnoc(Step, w, es2 + work.between, Write(h.0, h.1, work.at));
  }

  function AfterBatch(w: World, mine: seq<Held>, works: seq<Work>): World
    requires |works| >= |mine|
    decreases |mine|
  {
    if mine == [] then w
    else
      var n := |mine| - 1;
      AfterJob(AfterBatch(w, mine[..n], works), mine[n], works[n])
  }

  function Successes(works: seq<Work>): nat {
    if works == [] then 0 else Successes(works[..|works| - 1]) + if works[|works| - 1].ok then 1 else 0
  }

  /** The attempts `n` onwards are the worker's and have not begun. */
  ghost predicate ToDo(w: World, mine: seq<Held>, n: nat) {
    forall k :: n <= k < |mine| ==> Holds(w, mine[k]) && w.entries[mine[k].0].held[mine[k].1].stage == Waiting
  }

  /** The attempts that a claim of `rows` makes. */
  function NextAttempts(es: seq<Entry>, rows: seq<nat>): (mine: seq<Held>)
    requires InOrder(Rows(es), rows)
    ensures |mine| == |rows|
    ensures forall k :: 0 <= k < |rows| ==> rows[k] < |es| && mine[k] == (rows[k], es[rows[k]].job.attempts + 1)
  {
    seq(|rows|, k requires 0 <= k < |rows| => (rows[k], es[rows[k]].job.attempts + 1))
  }

  class Tables {
    var clock: Time
    var entries: seq<Entry>

    function Now(): World
      reads this
    {
      World(clock, entries)
    }

    constructor (clock: Time)
      ensures Initial(Now())
    {
      this.clock, entries := clock, [];
    }

    method Others(es: seq<Event>)
      modifies this
      ensures Now() == Run(Step, old(Now()), es)
    {
      var w := Run(Step, Now(), es);
      clock, entries := w.clock, w.entries;
    }

    /** The clock as this process reads it, never behind a reading already taken. */
    method UtcNow(at: Time) returns (now: Time)
      modifies this`clock
      ensures now == clock == Later(old(clock), at)
    {
      now := Later(clock, at);
      clock := now;
    }

    method EnqueuePipelineJob(grievance: string, stage: string, suffix: string, at: Time)
      modifies this
      ensures Now() == Step(old(Now()), Enqueue(KeyOf(grievance, stage, suffix), at))
    {
      var key := KeyOf(grievance, stage, suffix);
      var now := UtcNow(at);
      if !HasKey(entries, key) {
        entries := entries + [Entry(NewJob(key, now), map[], [], 0)];
      }
    }

    /** The writes of the claim on one of its rows. */
    method TakeRow(id: nat, now: Time) returns (attempt: nat)
      requires id < |entries|
      modifies this`entries
      ensures entries == old(entries)[id := TakenBy(old(entries)[id], now)]
      ensures attempt == old(entries)[id].job.attempts + 1
    {
      var e := entries[id];
      var row := e.job.(status := Processing);
      row := row.(lockedUntil := Some(now + LEASE));
      row := row.(attempts := row.attempts + 1);
      attempt := row.attempts;
      entries := entries[id := Entry(row, e.held[attempt := Ticket(now + LEASE, Waiting)], e.started, e.succeeded)];
    }

    method ClaimRows(rows: seq<nat>, now: Time) returns (mine: seq<Held>)
      requires InOrder(Rows(entries), rows)
      modifies this`entries
      ensures entries == Taken(old(entries), rows, now)
      ensures mine == NextAttempts(old(entries), rows)
    {
      ghost var was := entries;
      mine := [];
      for k := 0 to |rows|
        invariant |entries| == |was| && |mine| == k
        invariant forall i :: 0 <= i < |was| ==>
          entries[i] == if i in rows[..k] then TakenBy(was[i], now) else was[i]
        invariant forall j :: 0 <= j < k ==> mine[j] == (rows[j], was[rows[j]].job.attempts + 1)
      {
        assert rows[k] !in rows[..k];
        var attempt := TakeRow(rows[k], now);
        mine := mine + [(rows[k], attempt)];
        assert rows[..k + 1] == rows[..k] + [rows[k]];
      }
      assert rows[..|rows|] == rows;
    }

    /** Claim a batch; the returned attempts are now in the caller's hands, none of them begun. */
    method ClaimPipelineJobs(limit: nat, locked: set<nat>, at: Time) returns (mine: seq<Held>)
      requires Inv(Now())
      modifies this
      ensures Now() == Step(old(Now()), Claim(limit, locked, at)) && Inv(Now())
      ensures |mine| <= limit && ToDo(Now(), mine, 0)
      ensures forall j, k :: 0 <= j < k < |mine| ==> mine[j].0 != mine[k].0
    {
      StepKeepsInv(Now(), Claim(limit, locked, at));
      var now := UtcNow(at);
      ghost var was := entries;
      var rows := Batch(Now(), limit, locked, now);
      BatchIsInOrder(was, limit, locked, now);
      mine := ClaimRows(rows, now);
      TakenAreToDo(was, Now(), rows, now, mine);
    }

    method StartWork(h: Held)
      requires Holds(Now(), h) && entries[h.0].held[h.1].stage == Waiting
      modifies this
      ensures Now() == Step(old(Now()), Start(h.0, h.1))
      ensures Holds(Now(), h) && entries[h.0].held[h.1].stage == Running
    {
      var e := entries[h.0];
      entries := entries[h.0 := e.(held := e.held[h.1 := e.held[h.1].(stage := Running)], started := e.started + [h.1])];
    }

    /** session.get: the row as it is now. */
    method LoadJob(h: Held, ok: bool)
      requires Holds(Now(), h) && entries[h.0].held[h.1].stage == Running
      modifies this
      ensures Now() == Step(old(Now()), Load(h.0, h.1, ok))
      ensures Holds(Now(), h) && entries[h.0].held[h.1].stage == Loaded(old(entries)[h.0].job, ok)
    {
      var e := entries[h.0];
      entries := entries[h.0 := e.(held := e.held[h.1 := e.held[h.1].(stage := Loaded(e.job, ok))])];
    }

    /** The flush of a loaded row: only the columns that were changed. */
    method Flush(id: nat, loaded: Job, job: Job)
      requires id < |entries|
      modifies this`entries
      ensures entries == old(entries)[id := old(entries)[id].(job := Flushed(old(entries)[id].job, loaded, job))]
    {
      var row := entries[id].job;
      if job.status != loaded.status {
        row := row.(status := job.status);
      }
      if job.lockedUntil != loaded.lockedUntil {
        row := row.(lockedUntil := job.lockedUntil);
      }
      if job.nextAttemptAt != loaded.nextAttemptAt {
        row := row.(nextAttemptAt := job.nextAttemptAt);
      }
      entries := entries[id := entries[id].(job := row)];
    }

    /** complete_pipeline_job on the row as it was loaded. */
    method CompletePipelineJob(h: Held, at: Time)
      requires Holds(Now(), h) && entries[h.0].held[h.1].stage.Loaded? && entries[h.0].held[h.1].stage.ok
      modifies this
      ensures Now() == Step(old(Now()), Write(h.0, h.1, at))
    {
      var _ := UtcNow(at);
      var loaded := entries[h.0].held[h.1].stage.row;
      Flush(h.0, loaded, loaded.(status := Completed, lockedUntil := None));
      var e := entries[h.0];
      entries := entries[h.0 := e.(held := e.held - {h.1}, succeeded := e.succeeded + 1)];
    }

    /** fail_pipeline_job on the row as it was loaded. */
    method FailPipelineJob(h: Held, at: Time)
      requires Holds(Now(), h) && entries[h.0].held[h.1].stage.Loaded? && !entries[h.0].held[h.1].stage.ok
      modifies this
      ensures Now() == Step(old(Now()), Write(h.0, h.1, at))
    {
      var now := UtcNow(at);
      var loaded := entries[h.0].held[h.1].stage.row;
      var job := loaded.(lockedUntil := None);
      if job.attempts >= job.maxAttempts {
        job := job.(status := DeadLetter);
      } else {
        job := job.(status := Retry);
        var delay := Min(MAX_DELAY, Pow2(job.attempts));
        job := job.(nextAttemptAt := now + delay * SECOND);
      }
      Flush(h.0, loaded, job);
      var e := entries[h.0];
      entries := entries[h.0 := e.(held := e.held - {h.1})];
    }

    /** One job of the batch: run it, load its row, then write how it ended. */
    method RunJob(h: Held, work: Work, ghost mine: seq<Held>)
      requires Inv(Now()) && Holds(Now(), h) && entries[h.0].held[h.1].stage == Waiting && h in mine
      requires Quiet(work, mine)
      modifies this
      ensures Now() == AfterJob(old(Now()), h, work)
    {
      OthersKeepAttempt(Now(), work.before, mine, h);
      Others(work.before);
      StepKeepsInv(Now(), Start(h.0, h.1));
      StartWork(h);
      OthersKeepAttempt(Now(), work.during, mine, h);
      Others(work.during);
      StepKeepsInv(Now(), Load(h.0, h.1, work.ok));
      LoadJob(h, work.ok);
      OthersKeepAttempt(Now(), work.between, mine, h);
      Others(work.between);
      if work.ok {
        CompletePipelineJob(h, work.at);
      } else {
        FailPipelineJob(h, work.at);
      }
    }

    /** The loop over the claimed jobs: each is run once and ends one way or the other. */
    method RunBatch(mine: seq<Held>, works: seq<Work>) returns (succeeded: nat, failed: nat)
      requires Inv(Now()) && |works| == |mine| && ToDo(Now(), mine, 0)
      requires forall j, k :: 0 <= j < k < |mine| ==> mine[j] != mine[k]
      requires forall k :: 0 <= k < |works| ==> Quiet(works[k], mine)
      modifies this
      ensures Now() == AfterBatch(old(Now()), mine, works) && Inv(Now())
      ensures succeeded == Successes(works) && succeeded + failed == |mine|
    {
      succeeded, failed := 0, 0;
      ghost var w := Now();
      for k := 0 to |mine|
        invariant Now() == AfterBatch(w, mine[..k], works) && Inv(Now())
        invariant ToDo(Now(), mine, k)
        invariant succeeded == Successes(works[..k]) && succeeded + failed == k
      {
        assert mine[..k + 1][..k] == mine[..k] && works[..k + 1][..k] == works[..k];
        JobKeepsRest(Now(), mine, k, works[k]);
        RunJob(mine[k], works[k], mine);
        if works[k].ok {
          succeeded := succeeded + 1;
        } else {
          failed := failed + 1;
        }
      }
      assert mine[..|mine|] == mine && works[..|works|] == works;
    }
  }

  lemma BatchIsInOrder(was: seq<Entry>, limit: nat, locked: set<nat>, now: Time)
    ensures var rows := Picked(Rows(was), limit, locked, now);
      && InOrder(Rows(was), rows) && |rows| <= limit
      && (forall j, k :: 0 <= j < k < |rows| ==> rows[j] != rows[k])
  {
    PickedIsEarliestDue(Rows(was), limit, locked, now);
  }

  lemma TakenAreToDo(was: seq<Entry>, w: World, rows: seq<nat>, now: Time, mine: seq<Held>)
    requires InOrder(Rows(was), rows) && mine == NextAttempts(was, rows)
    requires w.entries == Taken(was, rows, now)
    ensures ToDo(w, mine, 0)
  {
    forall k | 0 <= k < |mine| ensures Holds(w, mine[k]) && w.entries[mine[k].0].held[mine[k].1].stage == Waiting {
      assert rows[k] in rows;
    }
  }

  /** Running one job of the batch leaves the rest of the batch waiting. */
  lemma JobKeepsRest(w: World, mine: seq<Held>, n: nat, work: Work)
    requires Inv(w) && n < |mine| && ToDo(w, mine, n)
    requires forall j, k :: 0 <= j < k < |mine| ==> mine[j] != mine[k]
    requires Quiet(work, mine)
    ensures Inv(AfterJob(w, mine[n], work)) && ToDo(AfterJob(w, mine[n], work), mine, n + 1)
  {
    ScriptRuns(w, mine[n], work);
    RunKeepsInv(w, Script(mine[n], work));
    forall k | n < k < |mine|
      ensures var w' := AfterJob(w, mine[n], work);
        Holds(w', mine[k]) && w'.entries[mine[k].0].held[mine[k].1].stage == Waiting
    {
      OthersKeepAttempt(w, Script(mine[n], work), [mine[k]], mine[k]);
    }
  }

  /** A worker's claims, starts, loads and writes are steps of the queue, so a batch is a run of it. */
  lemma {:induction false} BatchIsARun(w: World, mine: seq<Held>, works: seq<Work>) returns (es: seq<Event>)
    requires |works| >= |mine|
    ensures AfterBatch(w, mine, works) == Run(Step, w, es)
    decreases |mine|
  {
    if mine == [] {
      es := [];
    } else {
      var n := |mine| - 1;
      var before := BatchIsARun(w, mine[..n], works);
      ScriptRuns(Run(Step, w, before), mine[n], works[n]);
      RunConcat(Step, w, before, Script(mine[n], works[n]));
      es := before + Script(mine[n], works[n]);
    }
  }
}
