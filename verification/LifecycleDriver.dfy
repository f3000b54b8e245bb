/**
 The lifecycle's operations, statement by statement.  What other processes do while one of them waits for
 a model or for the department is an argument.
 */
module LifecycleDriver {
  import opened Wrappers
  import opened Clock
  import opened Runs
  import opened Grievances
  import opened Lifecycle
  import opened Finalizing
  import Dedup
  import T = Taxonomy

  /** The event is not a step of session `who`. */
  predicate NotBy(e: Event, who: nat) {
    match e
    case Create(_) => true
    case Review(_, _, _) => true
    case Finalize(_, _) => true
    case Cancel(_) => true
    case _ => e.who != who
  }

  ghost predicate OthersOnly(es: seq<Event>, who: nat) {
    forall k :: 0 <= k < |es| ==> NotBy(es[k], who)
  }

  predicate SameSizes(w: World) { |w.logs| == |w.gs| }

  /** What others leave alone: the session's own work, and every row's place. */
  ghost predicate Spared(w: World, w': World, who: nat) {
    && SameSizes(w') && |w.gs| <= |w'.gs| && w'.settings == w.settings
    && (who in w.flights ==> who in w'.flights && w'.flights[who] == w.flights[who])
    && (who !in w.flights ==> who !in w'.flights)
    && (who in w.readings ==> who in w'.readings && w'.readings[who] == w.readings[who])
  }

  lemma StepSpares(w: World, e: Event, who: nat)
    requires NotBy(e, who) && SameSizes(w)
    ensures Spared(w, Step(w, e), who)
  {
    if e.Finalize? && e.id < |w.gs| {
      VerdictIsSound(w.gs, e.id, e.now, w.settings);
    } else if !e.Create? && !e.Finalize? {
      TouchesOneRow(w, e);
    }
  }

  lemma OthersSpare(w: World, es: seq<Event>, who: nat)
    requires OthersOnly(es, who) && SameSizes(w)
    ensures Spared(w, Run(Step, w, es), who)
    decreases |es|
  {
    if es != [] {
      OthersSpare(w, es[..|es| - 1], who);
      StepSpares(Run(Step, w, es[..|es| - 1]), es[|es| - 1], who);
    }
  }

  /** How a dispatch ends: its answer is recorded, or it raises, before the department is called or after. */
  datatype Ending = Returned(ok: bool) | RaisedBefore | RaisedAfter(ok: bool)

  /** How one dispatch goes: its end, and what others do before and after the call. */
  datatype Course = Course(before: seq<Event>, ending: Ending, after: seq<Event>)

  ghost predicate FitsOthers(c: Course, who: nat) {
    OthersOnly(c.before, who) && OthersOnly(c.after, who)
  }

  /** One dispatch_grievance, from its first commit to its last, or to the point at which it raises. */
  function AfterDispatch(w: World, who: nat, id: nat, c: Course): World {
    var started := Step(w, StartDispatch(who, id));
    if who !in started.flights then started
    else
      var ready := Run(Step, started, c.before);
      match c.ending
      case Returned(ok) => Step(Run(Step, Step(ready, CallDispatcher(who, ok)), c.after), EndDispatch(who))
      case RaisedBefore => Step(ready, Crash(who))
      case RaisedAfter(ok) => Step(Run(Step, Step(ready, CallDispatcher(who, ok)), c.after), Crash(who))
  }

  datatype Outcome = WasRegistered | WasDuplicate(master: nat, reportCount: nat) | WasWindowed | WasSubmitted
                   | StillDispatching | HasFailed | Raised

  /** What a dispatch of the row reports: its route, the answer and the attempts it read decide. */
  function DispatchOutcome(g: Grievance, c: Course): Outcome {
    if g.dispatchEnabled == Some(false) then WasRegistered
    else match c.ending
      case Returned(ok) =>
        if ok then WasSubmitted
        else if g.attempts + 1 >= MAX_DISPATCH_ATTEMPTS then HasFailed else StillDispatching
      case _ => Raised
  }

  /** What finalize reports before any dispatch. */
  function ConfirmOutcome(v: Verdict): Outcome {
    match v
    case DuplicateOf(master, newCount) => WasDuplicate(master, newCount)
    case OpenWindow => WasWindowed
    case _ => WasRegistered
  }

  /** What finalize reports, by what is on the table. */
  ghost predicate Reports(gs: seq<Grievance>, id: nat, now: Time, s: Settings, outcome: Outcome)
    requires id < |gs|
  {
    && (outcome.WasWindowed? <==> JoinsNone(gs, id, now, s))
    && (outcome.WasDuplicate? ==> Joins(gs, id, outcome.master, now, s)
                                  && outcome.reportCount == gs[outcome.master].reportCount + 1)
    && (forall m: nat :: Joins(gs, id, m, now, s) ==> outcome.WasDuplicate? && outcome.master == m)
  }

  lemma ReportsTheVerdict(gs: seq<Grievance>, id: nat, now: Time, s: Settings)
    requires id < |gs|
    ensures Reports(gs, id, now, s, ConfirmOutcome(Decide(gs, id, now, s)))
    ensures Decide(gs, id, now, s) == DispatchNow <==> Urgent(gs[id])
    ensures Urgent(gs[id]) ==> forall c: Course, g: Grievance :: Reports(gs, id, now, s, DispatchOutcome(g, c))
  {
    VerdictExactly(gs, id, now, s);
  }

  /** Sweep queries: the ids of at most `limit` rows that satisfy the condition, in table order. */
  function Fetch(gs: seq<Grievance>, from: nat, limit: nat, due: Grievance -> bool): (ids: seq<nat>)
    requires from <= |gs|
    ensures forall k :: 0 <= k < |ids| ==> from <= ids[k] < |gs| && due(gs[ids[k]])
    ensures |ids| <= limit
    ensures |ids| < limit ==> forall i :: from <= i < |gs| && due(gs[i]) ==> i in ids
    ensures forall j, k :: 0 <= j < k < |ids| ==> ids[j] < ids[k]
    decreases |gs| - from
  {
    if from == |gs| || limit == 0 then []
    else if due(gs[from]) then [from] + Fetch(gs, from + 1, limit - 1, due)
    else Fetch(gs, from + 1, limit, due)
  }

  class Tables {
    const settings: Settings
    var gs: seq<Grievance>
    var flights: map<nat, Flight>
    var logs: seq<Log>
    var readings: map<nat, Reading>

    function Now(): World
      reads this
    {
      World(settings, gs, flights, logs, readings)
    }

    constructor (settings: Settings)
      ensures this.settings == settings && Initial(Now())
    {
      this.settings := settings;
      gs, flights, logs, readings := [], map[], [], map[];
    }

    method Others(es: seq<Event>, who: nat)
      requires OthersOnly(es, who) && SameSizes(Now())
      modifies this
      ensures Now() == Run(Step, old(Now()), es) && Spared(old(Now()), Now(), who)
    {
      OthersSpare(Now(), es, who);
      var w := Run(Step, Now(), es);
      gs, flights, logs, readings := w.gs, w.flights, w.logs, w.readings;
    }

    /** set_grievance_fields(status=...) followed by add_grievance_event(status=...). */
    method SetStatus(id: nat, status: Status)
      requires id < |gs|
      modifies this`gs
      ensures gs == old(gs)[id := WithStatus(old(gs)[id], status)]
    {
      var g := gs[id].(status := status);
      gs := gs[id := g.(timeline := g.timeline + [status])];
    }

    method CancelGrievance(id: nat)
      requires id < |gs|
      modifies this
      ensures Now() == Step(old(Now()), Cancel(id))
    {
      SetStatus(id, Cancelled);
    }

    /** The rest of finalize_grievance once a master is found: link to it and count one more there. */
    method LinkTo(id: nat, master: nat)
      requires id < |gs| && master < |gs| && id != master
      modifies this`gs
      ensures gs == old(gs)[id := WithStatus(old(gs)[id], Status.Duplicate).(duplicateOf := Some(master))]
                           [master := old(gs)[master].(reportCount := old(gs)[master].reportCount + 1)]
    {
      var newCount := gs[master].reportCount + 1;
      SetStatus(id, Status.Duplicate);
      gs := gs[id := gs[id].(duplicateOf := Some(master))];
      gs := gs[master := gs[master].(reportCount := newCount)];
    }

    method OpenTheWindow(id: nat, now: Time)
      requires id < |gs|
      modifies this`gs
      ensures gs == old(gs)[id := WithStatus(old(gs)[id], PendingWindow).(windowEnds := Some(now + settings.window))]
    {
      SetStatus(id, PendingWindow);
      gs := gs[id := gs[id].(windowEnds := Some(now + settings.window))];
    }

    method Register(id: nat, now: Time)
      requires id < |gs|
      modifies this`gs
      ensures gs == old(gs)[id := Confirmed(old(gs)[id], now)]
    {
      SetStatus(id, Registered);
      gs := gs[id := gs[id].(confirmedAt := Some(now))];
    }

    /** finalize_grievance up to its commit; `dispatch` when it goes on to dispatch the complaint itself. */
    method Confirm(id: nat, now: Time) returns (outcome: Outcome, dispatch: bool)
      requires id < |gs|
      modifies this`gs
      ensures gs == Finalized(old(gs), id, now, settings)
      ensures dispatch <==> Urgent(old(gs)[id])
      ensures Reports(old(gs), id, now, settings, outcome)
      ensures outcome == ConfirmOutcome(Decide(old(gs), id, now, settings))
    {
      var g := gs[id];
      ReportsTheVerdict(gs, id, now, settings);
      outcome, dispatch := WasRegistered, false;
      ghost var before := gs;
      Register(id, now);
      if g.review == Some(PendingOfficial) {
        return;
      }
      if g.disposition in {Some(T.Redirect), Some(T.EmergencyRedirect), Some(T.NeedsHumanReview)} {
        gs := gs[id := gs[id].(review := Some(PendingOfficial))];
        return;
      }
      if g.priority == Some("priority") {
        dispatch := true;
        return;
      }
      var category := if g.category.Some? && g.category.value != "" then g.category.value else "other";
      FinalizedBySearch(before, id, category, now, settings);
      outcome := MergeOrWait(before, id, category, g.place, now);
    }

    /** The part of finalize_grievance that looks for a duplicate, after the row itself is registered. */
    method MergeOrWait(ghost before: seq<Grievance>, id: nat, category: string, place: Option<Point>, now: Time)
      returns (outcome: Outcome)
      requires id < |before| && place == before[id].place && gs == before[id := Confirmed(before[id], now)]
      modifies this`gs
      ensures var found := Dedup.Duplicate(before, settings.geo, category, place, settings.radius, id, now);
              match found
              case None => outcome == WasWindowed && gs == Windowed(before, id, now, settings)
              case Some(m) =>
                && m.master < |before| && m.master != id
                && outcome == WasDuplicate(m.master, before[m.master].reportCount + 1)
                && gs == Merged(before, id, m.master, now)
    {
      CandidatesIgnoreSelf(before, gs, settings.geo, category, place, id, now, settings.radius);
      var master := SearchMaster(id, category, place, now);
      outcome := LinkOrWait(before, id, master, now);
    }

    method SearchMaster(id: nat, category: string, place: Option<Point>, now: Time) returns (master: Option<nat>)
      ensures var found := Dedup.Duplicate(gs, settings.geo, category, place, settings.radius, id, now);
              master == if found.Some? then Some(found.value.master) else None
      ensures master.Some? ==> master.value < |gs| && master.value != id
    {
      var duplicate := Dedup.FindDuplicate(gs, settings.geo, category, place, settings.radius, id, now);
      master := if duplicate.Some? then Some(duplicate.value.master) else None;
    }

    method LinkOrWait(ghost before: seq<Grievance>, id: nat, found: Option<nat>, now: Time) returns (outcome: Outcome)
      requires id < |before| && gs == before[id := Confirmed(before[id], now)]
      requires found.Some? ==> found.value < |before| && found.value != id
      modifies this`gs
      ensures match found
              case None => outcome == WasWindowed && gs == Windowed(before, id, now, settings)
              case Some(master) =>
                && outcome == WasDuplicate(master, before[master].reportCount + 1)
                && gs == Merged(before, id, master, now)
    {
      if found.Some? {
        var master := found.value;
        outcome := WasDuplicate(master, gs[master].reportCount + 1);
        LinkTo(id, master);
        LinkedIsMerged(before, id, master, now);
        return;
      }
      OpenTheWindow(id, now);
      outcome := WasWindowed;
    }

    /** The first commit of dispatch_grievance; false when the route is switched off. */
    method StartDispatching(who: nat, id: nat) returns (enabled: bool)
      requires id < |gs| && who !in flights
      modifies this
      ensures Now() == Step(old(Now()), StartDispatch(who, id)) && |gs| == |old(gs)|
      ensures enabled <==> old(gs)[id].dispatchEnabled != Some(false)
      ensures if enabled then who in flights && flights[who] == Flight(id, Calling, old(gs)[id].attempts)
              else who !in flights
      ensures var g := old(gs)[id];
              gs == old(gs)[id := if enabled then g.(status := Status.Dispatching)
                                  else g.(status := Registered, review := Some(PendingOfficial),
                                          timeline := g.timeline + [Registered])]
      ensures !enabled ==> flights == old(flights) && logs == old(logs)
    {
      var g := gs[id];
      enabled := !(g.dispatchEnabled.Some? && !g.dispatchEnabled.value);
      if !enabled {
        SetStatus(id, Registered);
        gs := gs[id := gs[id].(review := Some(PendingOfficial))];
        return;
      }
      gs := gs[id := gs[id].(status := Status.Dispatching)];
      flights := flights[who := Flight(id, Calling, g.attempts)];
    }

    /** The department's answer, known to nobody else until it is recorded. */
    method CallDepartment(who: nat, ok: bool)
      requires Flies(Now(), who) && flights[who].phase.Calling?
      modifies this
      ensures Now() == Step(old(Now()), CallDispatcher(who, ok)) && |gs| == |old(gs)| && |logs| == |old(logs)|
      ensures who in flights && flights[who] == old(flights)[who].(phase := if ok then Delivered else Failed)
    {
      var f := flights[who];
      flights := flights[who := f.(phase := if ok then Delivered else Failed)];
      var log := logs[f.id];
      logs := logs[f.id := if ok then log.(deliveries := log.deliveries + 1) else log.(failures := log.failures + 1)];
    }

    /**
     The last commit of dispatch_grievance.  The session still has the attempts it read at its start, and
     the row as dispatching: setting that status again writes nothing.
     */
    method RecordAnswer(who: nat, id: nat, ok: bool, attemptsRead: nat) returns (outcome: Outcome)
      requires Flies(Now(), who) && flights[who] == Flight(id, if ok then Delivered else Failed, attemptsRead)
      modifies this
      ensures Now() == Step(old(Now()), EndDispatch(who))
      ensures who !in flights && |gs| == |old(gs)| && |logs| == |old(logs)|
      ensures outcome == if ok then WasSubmitted
                         else if attemptsRead + 1 >= MAX_DISPATCH_ATTEMPTS then HasFailed else StillDispatching
      ensures var g := old(gs)[id];
              gs == old(gs)[id :=
                if outcome == WasSubmitted then g.(status := Submitted, timeline := g.timeline + [Submitted])
                else if outcome == StillDispatching then g.(attempts := attemptsRead + 1)
                else g.(attempts := attemptsRead + 1, status := DispatchFailed, timeline := g.timeline + [DispatchFailed])]
    {
      if ok {
        SetStatus(id, Submitted);
        outcome := WasSubmitted;
      } else {
        var attempts := attemptsRead + 1;
        gs := gs[id := gs[id].(attempts := attempts)];
        if attempts >= MAX_DISPATCH_ATTEMPTS {
          SetStatus(id, DispatchFailed);
          outcome := HasFailed;
        } else {
          outcome := StillDispatching;
        }
      }
      logs := logs[id := AfterRecord(logs[id], flights[who].phase)];
      flights := flights - {who};
    }

    /** dispatch_grievance, with everything others do around its call - dispatching the same row included. */
    method DispatchGrievance(who: nat, id: nat, c: Course) returns (outcome: Outcome)
      requires id < |gs| && who !in flights && SameSizes(Now()) && FitsOthers(c, who)
      modifies this
      ensures Now() == AfterDispatch(old(Now()), who, id, c)
      ensures SameSizes(Now()) && |old(gs)| <= |gs| && who !in flights
      ensures outcome == DispatchOutcome(old(gs)[id], c)
      ensures old(gs)[id].dispatchEnabled != Some(false) ==>
        && (outcome == WasSubmitted <==> c.ending == Returned(true))
        && (outcome == HasFailed <==> c.ending == Returned(false) && old(gs)[id].attempts + 1 >= 5)
        && (outcome == StillDispatching <==> c.ending == Returned(false) && old(gs)[id].attempts + 1 < 5)
        && (outcome == Raised <==> !c.ending.Returned?)
      ensures var g := old(gs)[id];
              g.dispatchEnabled == Some(false) ==>
                && outcome == WasRegistered && flights == old(flights) && logs == old(logs) && readings == old(readings)
                && gs == old(gs)[id := g.(status := Registered, review := Some(PendingOfficial),
                                          timeline := g.timeline + [Registered])]
    {
      var attempts := gs[id].attempts;
      var enabled := StartDispatching(who, id);
      if !enabled {
        return WasRegistered;
      }
      Others(c.before, who);
      if c.ending.RaisedBefore? {
        Raise(who);
        return Raised;
      }
      CallDepartment(who, c.ending.ok);
      Others(c.after, who);
      if c.ending.RaisedAfter? {
        Raise(who);
        return Raised;
      }
      outcome := RecordAnswer(who, id, c.ending.ok, attempts);
    }

    /** An exception other than the department's refusal: nothing more is recorded. */
    method Raise(who: nat)
      requires Flies(Now(), who)
      modifies this
      ensures Now() == Step(old(Now()), Crash(who)) && who !in flights && |gs| == |old(gs)| && |logs| == |old(logs)|
    {
      var id := flights[who].id;
      var log := logs[id];
      match flights[who].phase {
        case Calling =>
        case Delivered => logs := logs[id := log.(lostDeliveries := log.lostDeliveries + 1)];
        case Failed => logs := logs[id := log.(lostFailures := log.lostFailures + 1)];
      }
      flights := flights - {who};
    }

    /**
     finalize_grievance: confirm, and go on to dispatch when the complaint has priority.  The dispatch
     opens a session of its own, so others can come between.
     */
    method FinalizeGrievance(who: nat, id: nat, now: Time, between: seq<Event>, c: Course) returns (outcome: Outcome)
      requires id < |gs| && who !in flights && SameSizes(Now()) && FitsOthers(c, who) && OthersOnly(between, who)
      modifies this
      ensures var confirmed := Step(old(Now()), Finalize(id, now));
              var ready := Run(Step, confirmed, between);
              if Urgent(old(gs)[id])
              then id < |ready.gs| && Now() == AfterDispatch(ready, who, id, c) && outcome == DispatchOutcome(ready.gs[id], c)
              else Now() == confirmed && outcome == ConfirmOutcome(Decide(old(gs), id, now, settings))
      ensures Reports(old(gs), id, now, settings, outcome)
    {
      ReportsTheVerdict(gs, id, now, settings);
      var dispatch;
      outcome, dispatch := Confirm(id, now);
      if dispatch {
        Others(between, who);
        outcome := DispatchGrievance(who, id, c);
      }
    }

    /** Load the row and wait for a model while others go on. */
    method LoadAndAsk(who: nat, id: nat, meanwhile: seq<Event>) returns (seen: Status)
      requires id < |gs| && who !in readings && SameSizes(Now()) && OthersOnly(meanwhile, who)
      modifies this
      ensures seen == old(gs)[id].status && SameSizes(Now()) && |old(gs)| <= |gs|
      ensures Now() == Run(Step, Step(old(Now()), Load(who, id)), meanwhile)
      ensures who in readings && readings[who] == Reading(id, seen)
    {
      seen := gs[id].status;
      readings := readings[who := Reading(id, seen)];
      Others(meanwhile, who);
    }

    /**
     reextract_grievance: what the model answers is written with an entry that repeats the status of the
     loaded row.  No usable answer, no write.
     */
    method ReextractGrievance(who: nat, id: nat, meanwhile: seq<Event>, columns: Option<Columns>)
      requires id < |gs| && who !in readings && SameSizes(Now()) && OthersOnly(meanwhile, who)
      modifies this
      ensures var asked := Run(Step, Step(old(Now()), Load(who, id)), meanwhile);
              Now() == Step(asked, if columns.Some? then WriteReextraction(who, columns.value) else Drop(who))
    {
      var seen := LoadAndAsk(who, id, meanwhile);
      if columns.Some? {
        var g := Rewritten(gs[id], columns.value);
        gs := gs[id := g.(timeline := g.timeline + [seen])];
      }
      readings := readings - {who};
    }

    /** Set the status on the row as it was loaded, flush, and add the event. */
    method WriteNext(who: nat, columns: Columns, mismatch: bool)
      requires Reads(Now(), who)
      modifies this
      ensures Now() == Step(old(Now()), WriteChecked(who, columns, mismatch))
    {
      var id, seen := readings[who].id, readings[who].seen;
      var next := if mismatch then PhotoMismatch else AwaitingConfirmation;
      var g := Rewritten(gs[id], columns);
      if next != seen {
        g := g.(status := next);
      }
      gs := gs[id := g.(timeline := g.timeline + [next])];
      readings := readings - {who};
    }

    /** run_pipeline and recheck_image; None when it raises before its commit. */
    method RunPipeline(who: nat, id: nat, meanwhile: seq<Event>, answer: Option<(Columns, bool)>)
      requires id < |gs| && who !in readings && SameSizes(Now()) && OthersOnly(meanwhile, who)
      modifies this
      ensures var asked := Run(Step, Step(old(Now()), Load(who, id)), meanwhile);
              Now() == Step(asked, if answer.Some? then WriteChecked(who, answer.value.0, answer.value.1) else Drop(who))
    {
      var _ := LoadAndAsk(who, id, meanwhile);
      if answer.Some? {
        WriteNext(who, answer.value.0, answer.value.1);
      } else {
        readings := readings - {who};
      }
    }

    /** accept_photo_mismatch: only a row loaded as mismatched is written. */
    method AcceptPhotoMismatch(who: nat, id: nat, meanwhile: seq<Event>)
      requires id < |gs| && who !in readings && SameSizes(Now()) && OthersOnly(meanwhile, who)
      modifies this
      ensures var asked := Run(Step, Step(old(Now()), Load(who, id)), meanwhile);
              Now() == Step(asked, if old(gs)[id].status == PhotoMismatch then WriteChecked(who, NO_COLUMNS, false)
                                   else Drop(who))
    {
      var seen := LoadAndAsk(who, id, meanwhile);
      if seen == PhotoMismatch {
        WriteNext(who, NO_COLUMNS, false);
      } else {
        readings := readings - {who};
      }
    }

    /**
     Both sweeps: dispatch the rows the query returned, one after another, whoever else is dispatching
     them; a dispatch that raises does not stop the ones after it.  `due` is the query's condition, an
     expired window or an interrupted dispatch.
     */
    method Sweep(who: nat, limit: nat, due: Grievance -> bool, courses: seq<Course>) returns (swept: nat)
      requires who !in flights && SameSizes(Now()) && |Fetch(gs, 0, limit, due)| <= |courses|
      requires forall k :: 0 <= k < |courses| ==> FitsOthers(courses[k], who)
      modifies this
      ensures var ids := Fetch(old(gs), 0, limit, due);
              swept == |ids| && Now() == AfterDispatches(old(Now()), who, ids, courses)
    {
      ghost var w := Now();
      var ids := Fetch(gs, 0, limit, due);
      for k := 0 to |ids|
        invariant Now() == AfterDispatches(w, who, ids[..k], courses)
        invariant SameSizes(Now()) && |w.gs| <= |gs| && who !in flights
      {
        assert ids[..k + 1][..k] == ids[..k];
        var _ := DispatchGrievance(who, ids[k], courses[k]);
      }
      assert ids[..|ids|] == ids;
      swept := |ids|;
    }
  }

  /** The dispatches of one sweep in order. */
  function AfterDispatches(w: World, who: nat, ids: seq<nat>, courses: seq<Course>): World
    requires |ids| <= |courses|
    decreases |ids|
  {
    if ids == [] then w
    else
      var n := |ids| - 1;
      AfterDispatch(AfterDispatches(w, who, ids[..n], courses), who, ids[n], courses[n])
  }

  // ----- retries run out -----

  /** Nobody else does anything, and the department refuses. */
  predicate Refused(c: Course) { c.before == [] && c.after == [] && c.ending == Returned(false) }

  /** The same row swept `n` times. */
  function Retries(w: World, who: nat, id: nat, c: Course, n: nat): World {
    if n == 0 then w else AfterDispatch(Retries(w, who, id, c, n - 1), who, id, c)
  }

  /** The session can dispatch the row: it has no dispatch under way, and the route is not switched off. */
  predicate Ready(w: World, who: nat, id: nat) {
    SameSizes(w) && id < |w.gs| && who !in w.flights && w.gs[id].dispatchEnabled != Some(false)
  }

  /** `w'` differs from `w` by `n` more failed attempts on `id`. */
  predicate Tried(w: World, w': World, who: nat, id: nat, n: nat) {
    && Ready(w, who, id) && Ready(w', who, id)
    && w'.gs[id].attempts == w.gs[id].attempts + n
    && w'.gs[id].status == if w'.gs[id].attempts >= MAX_DISPATCH_ATTEMPTS then DispatchFailed else Status.Dispatching
  }

  lemma RefusedDispatch(w: World, who: nat, id: nat, c: Course)
    requires Ready(w, who, id) && Refused(c)
    ensures Tried(w, AfterDispatch(w, who, id, c), who, id, 1)
  {
    var w1 := Step(w, StartDispatch(who, id));
    assert w1.flights[who] == Flight(id, Calling, w.gs[id].attempts) && |w1.gs| == |w.gs| && w1.logs == w.logs;
    var w2 := Step(w1, CallDispatcher(who, false));
    assert w2.flights[who] == Flight(id, Failed, w.gs[id].attempts) && w2.gs == w1.gs && |w2.logs| == |w.logs|;
    assert AfterDispatch(w, who, id, c) == Step(w2, EndDispatch(who));
  }

  lemma TriedMore(w: World, before: World, after: World, who: nat, id: nat, n: nat)
    requires (n == 0 && before == w) || Tried(w, before, who, id, n)
    requires Tried(before, after, who, id, 1)
    ensures Tried(w, after, who, id, n + 1)
  {
  }

  lemma {:induction false} RetriesAreTried(w: World, who: nat, id: nat, c: Course, n: nat)
    requires Ready(w, who, id) && Refused(c) && n >= 1
    ensures Tried(w, Retries(w, who, id, c, n), who, id, n)
    decreases n
  {
    if n == 1 {
      RefusedDispatch(w, who, id, c);
      assert Retries(w, who, id, c, 0) == w;
    } else {
      var before := Retries(w, who, id, c, n - 1);
      RetriesAreTried(w, who, id, c, n - 1);
      RefusedDispatch(before, who, id, c);
      TriedMore(w, before, AfterDispatch(before, who, id, c), who, id, n - 1);
    }
  }

  /**
   A department that keeps refusing: the row stays where the sweep for interrupted dispatches finds it
   until its attempts are used up, and then it has failed for good - after exactly five in all.
   */
  lemma RetriesRunOut(w: World, who: nat, id: nat, c: Course, n: nat)
    requires Ready(w, who, id) && Refused(c)
    requires 1 <= n && w.gs[id].attempts + n <= MAX_DISPATCH_ATTEMPTS
    ensures var w' := Retries(w, who, id, c, n);
            && id < |w'.gs|
            && (StuckDispatching(w'.gs[id]) <==> w.gs[id].attempts + n < MAX_DISPATCH_ATTEMPTS)
            && (w'.gs[id].status == DispatchFailed <==> w.gs[id].attempts + n == MAX_DISPATCH_ATTEMPTS)
  {
    RetriesAreTried(w, who, id, c, n);
  }

  /** finalize_grievance on an undecided row follows the search for a duplicate. */
  lemma {:induction false} FinalizedBySearch(gs: seq<Grievance>, id: nat, category: string, now: Time, s: Settings)
    requires id < |gs|
    requires var g := gs[id];
      && g.review != Some(PendingOfficial) && g.priority != Some("priority")
      && g.disposition !in {Some(T.Redirect), Some(T.EmergencyRedirect), Some(T.NeedsHumanReview)}
      && category == if g.category.Some? && g.category.value != "" then g.category.value else "other"
    ensures var found := Dedup.Duplicate(gs, s.geo, category, gs[id].place, s.radius, id, now);
      && (found.None? ==> Decide(gs, id, now, s) == OpenWindow && Finalized(gs, id, now, s) == Windowed(gs, id, now, s))
      && (found.Some? && found.value.master < |gs| ==>
            && Decide(gs, id, now, s) == DuplicateOf(found.value.master, gs[found.value.master].reportCount + 1)
            && Finalized(gs, id, now, s) == Merged(gs, id, found.value.master, now))
  {
    var found := Dedup.Duplicate(gs, s.geo, category, gs[id].place, s.radius, id, now);
  }

  function Windowed(gs: seq<Grievance>, id: nat, now: Time, s: Settings): seq<Grievance>
    requires id < |gs|
  {
    gs[id := WithStatus(Confirmed(gs[id], now), PendingWindow).(windowEnds := Some(now + s.window))]
  }

  lemma LinkedIsMerged(gs: seq<Grievance>, id: nat, master: nat, now: Time)
    requires id < |gs| && master < |gs| && id != master
    ensures var registered := gs[id := Confirmed(gs[id], now)];
      registered[id := WithStatus(registered[id], Status.Duplicate).(duplicateOf := Some(master))]
                [master := registered[master].(reportCount := registered[master].reportCount + 1)]
      == Merged(gs, id, master, now)
  {
  }

  function Merged(gs: seq<Grievance>, id: nat, master: nat, now: Time): seq<Grievance>
    requires id < |gs| && master < |gs|
  {
    var linked := gs[id := WithStatus(Confirmed(gs[id], now), Status.Duplicate).(duplicateOf := Some(master))];
    linked[master := linked[master].(reportCount := gs[master].reportCount + 1)]
  }

  /** Marking the row itself registered does not change what find_duplicate sees: it leaves that row out. */
  lemma {:induction false} CandidatesIgnoreSelf(gs: seq<Grievance>, gs': seq<Grievance>, geo: Geo, category: string,
                                                place: Option<Point>, id: nat, now: Time, radius: real)
    requires |gs| == |gs'| && forall k :: 0 <= k < |gs| && k != id ==> gs'[k] == gs[k]
    ensures Dedup.Duplicate(gs', geo, category, place, radius, id, now)
         == Dedup.Duplicate(gs, geo, category, place, radius, id, now)
  {
    if place.Some? {
      SameCandidates(gs, gs', geo, category, place.value, id, now);
      SameNearest(gs, gs', geo, place.value, radius, Dedup.Candidates(gs, geo, category, place.value, id, now));
    }
  }

  lemma {:induction false} SameCandidates(gs: seq<Grievance>, gs': seq<Grievance>, geo: Geo, category: string,
                                          here: Point, id: nat, now: Time)
    requires |gs| == |gs'| && forall k :: 0 <= k < |gs| && k != id ==> gs'[k] == gs[k]
    ensures Dedup.Candidates(gs', geo, category, here, id, now) == Dedup.Candidates(gs, geo, category, here, id, now)
  {
    if gs != [] {
      SameCandidates(gs[..|gs| - 1], gs'[..|gs| - 1], geo, category, here, id, now);
    }
  }

  lemma {:induction false} SameNearest(gs: seq<Grievance>, gs': seq<Grievance>, geo: Geo, here: Point, radius: real,
                                       ids: seq<nat>)
    requires |gs| == |gs'|
    requires forall k :: 0 <= k < |ids| ==> ids[k] < |gs| && gs'[ids[k]] == gs[ids[k]] && gs[ids[k]].place.Some?
    ensures Dedup.Nearest(gs', geo, here, radius, ids) == Dedup.Nearest(gs, geo, here, radius, ids)
  {
    if ids != [] {
      SameNearest(gs, gs', geo, here, radius, ids[..|ids| - 1]);
    }
  }
}
