/** Who will see to a complaint: whether anybody is left to take it further. */
module Attendance {
  import opened Wrappers
  import opened Clock
  import opened Runs
  import opened Grievances
  import opened Lifecycle
  import opened Finalizing
  import opened DispatchRetries
  import opened LifecycleDriver
  import opened Timeline

  /** Somebody will: it is linked to a master, waits for an official, or a sweep finds it some day. */
  ghost predicate Attended(g: Grievance) {
    || g.status == Status.Duplicate
    || (g.status == Registered && g.review == Some(PendingOfficial))
    || StuckDispatching(g)
    || exists t :: ExpiredWindow(g, t)
  }

  /** Nobody has to: the citizen has not confirmed or has withdrawn, or the dispatch is over. */
  predicate Resting(g: Grievance) {
    PreFinal(g.status) || g.status in {Submitted, DispatchFailed, Cancelled}
  }

  lemma WindowsAreAttended(g: Grievance)
    ensures g.status == PendingWindow && g.windowEnds.Some? <==> exists t :: ExpiredWindow(g, t)
  {
    if g.windowEnds.Some? && g.status == PendingWindow {
      assert ExpiredWindow(g, g.windowEnds.value);
    }
  }

  /**
   The one gap of finalize: a priority complaint is committed as registered before it is dispatched, and neither
   sweep looks at registered rows.  Exactly an urgent complaint is left, until its dispatch has started, for
   nobody to find.
   */
  lemma UnattendedExactlyBeforeDispatch(w: World, id: nat, now: Time)
    requires id < |w.gs|
    ensures |Step(w, Finalize(id, now)).gs| == |w.gs|
    ensures Attended(Step(w, Finalize(id, now)).gs[id]) <==> !Urgent(w.gs[id])
  {
    VerdictExactly(w.gs, id, now, w.settings);
    RowsAfterFinalize(w.gs, id, now, w.settings);
    WindowsAreAttended(Step(w, Finalize(id, now)).gs[id]);
  }

  // ----- the two commits of a dispatch -----

  /**
   A complaint on a route that is switched off is not sent anywhere: no dispatcher sets out, no call is made, and
   the row waits for an official.  Nothing else on it changes, and no other row.
   */
  lemma SwitchedOffWaitsForAnOfficial(w: World, who: nat, id: nat)
    requires id < |w.gs| && who !in w.flights && w.gs[id].dispatchEnabled == Some(false)
    ensures var g := w.gs[id];
            var g' := g.(status := Registered, review := Some(PendingOfficial), timeline := g.timeline + [Registered]);
            Step(w, StartDispatch(who, id)) == w.(gs := w.gs[id := g']) && Attended(g')
  {
  }

  /** On any other route a dispatcher sets out with the attempts it read; of the row only the status changes. */
  lemma SwitchedOnSetsOut(w: World, who: nat, id: nat)
    requires id < |w.gs| && who !in w.flights && w.gs[id].dispatchEnabled != Some(false)
    ensures var g, w' := w.gs[id], Step(w, StartDispatch(who, id));
            && w' == w.(gs := w.gs[id := g.(status := Status.Dispatching)],
                        flights := w.flights[who := Flight(id, Calling, g.attempts)])
            && (Attended(w'.gs[id]) <==> g.attempts < 5)
  {
    WindowsAreAttended(Step(w, StartDispatch(who, id)).gs[id]);
  }

  /** The row after the answer, as the department gave it. */
  ghost predicate AnswerRecorded(g: Grievance, g': Grievance, delivered: bool, attemptsRead: nat) {
    var failures := attemptsRead + 1;
    && (delivered ==> g' == g.(status := Submitted, timeline := g.timeline + [Submitted]))
    && (!delivered && failures < 5 ==> g' == g.(attempts := failures))
    && (!delivered && failures >= 5 ==>
          g' == g.(attempts := failures, status := DispatchFailed, timeline := g.timeline + [DispatchFailed]))
  }

  /**
   When the answer is recorded, whoever else has been at the row: it is submitted, has failed for good or is
   attended, exactly unless a refusal with attempts left meets a row that somebody has since moved to where no
   sweep looks.
   */
  lemma RecordedIsAttendedExactly(w: World, who: nat)
    requires Flies(w, who) && !w.flights[who].phase.Calling?
    ensures var f, w' := w.flights[who], Step(w, EndDispatch(who));
      && |w'.gs| == |w.gs| && w'.gs == w.gs[f.id := w'.gs[f.id]]
      && w'.flights == w.flights - {who}
      && AnswerRecorded(w.gs[f.id], w'.gs[f.id], f.phase.Delivered?, f.attemptsRead)
      && (w'.gs[f.id].status in {Submitted, DispatchFailed} || Attended(w'.gs[f.id]) <==>
            || f.phase.Delivered? || f.attemptsRead + 1 >= 5
            || w.gs[f.id].status in {Submitted, DispatchFailed, Status.Duplicate, Status.Dispatching}
            || (w.gs[f.id].status == Registered && w.gs[f.id].review == Some(PendingOfficial))
            || (w.gs[f.id].status == PendingWindow && w.gs[f.id].windowEnds.Some?))
  {
    WindowsAreAttended(Step(w, EndDispatch(who)).gs[w.flights[who].id]);
  }

  // ----- whole dispatches -----

  /** Others keep their discipline meanwhile, and dispatch other complaints only. */
  ghost predicate Undisturbed(w: World, who: nat, id: nat, c: Course) {
    var started := Step(w, StartDispatch(who, id));
    && InTurnAndAlone(w, StartDispatch(who, id)) && FitsOthers(c, who)
    && Allowed(Step, InTurnAndAlone, started, c.before)
    && (!c.ending.RaisedBefore? ==>
          Allowed(Step, InTurnAndAlone, Step(Run(Step, started, c.before), CallDispatcher(who, c.ending.ok)), c.after))
  }

  /** A dispatcher that is alone finds its row as it left it. */
  lemma AloneOnItsRow(w: World, who: nat)
    requires SerialInv(w) && who in w.flights
    ensures var f := w.flights[who];
      Flies(w, who) && w.gs[f.id].status == Status.Dispatching && w.gs[f.id].attempts == f.attemptsRead < 5
  {
    var id := w.flights[who].id;
    assert SerialOk(w.gs[id], w.logs[id], Crew(w.flights, id));
    assert who in Crew(w.flights, id);
  }

  /** Until its answer is recorded, an undisturbed dispatcher goes on as it started, in a run that is in order. */
  lemma StillOnItsWay(w: World, who: nat, id: nat, es: seq<Event>, phase: Phase)
    requires SerialInv(w) && OthersOnly(es, who) && Allowed(Step, InTurnAndAlone, w, es)
    requires who in w.flights && w.flights[who].id == id && w.flights[who].phase == phase
    ensures var w' := Run(Step, w, es);
      && SerialInv(w') && who in w'.flights && w'.flights[who] == w.flights[who]
      && Flies(w', who) && w'.gs[id].status == Status.Dispatching && w'.gs[id].attempts == w.flights[who].attemptsRead < 5
  {
    RunKeepsSerial(w, es);
    OthersSpare(w, es, who);
    AloneOnItsRow(Run(Step, w, es), who);
  }

  lemma SetsOut(w: World, who: nat, id: nat)
    requires SerialInv(w) && id < |w.gs| && who !in w.flights && w.gs[id].dispatchEnabled != Some(false)
    requires InTurnAndAlone(w, StartDispatch(who, id))
    ensures var w' := Step(w, StartDispatch(who, id));
      SerialInv(w') && who in w'.flights && w'.flights[who] == Flight(id, Calling, w.gs[id].attempts)
  {
    StepKeepsSerial(w, StartDispatch(who, id));
  }

  lemma HasCalled(w: World, who: nat, ok: bool)
    requires SerialInv(w) && Flies(w, who) && w.flights[who].phase.Calling?
    ensures var w' := Step(w, CallDispatcher(who, ok));
      && SerialInv(w') && who in w'.flights
      && w'.flights[who] == w.flights[who].(phase := if ok then Delivered else Failed)
  {
    StepKeepsSerial(w, CallDispatcher(who, ok));
  }

  /** What a dispatch on an enabled route leaves: delivered, failed for the fifth time, or found by the sweep again. */
  ghost predicate LeftBy(g: Grievance, c: Course, attempts: nat) {
    && (g.status == Submitted <==> c.ending == Returned(true))
    && (g.status == DispatchFailed <==> c.ending == Returned(false) && attempts + 1 == 5)
    && (StuckDispatching(g) <==> !c.ending.Returned? || (!c.ending.ok && attempts + 1 < 5))
    && g.attempts == (if c.ending == Returned(false) then attempts + 1 else attempts)
  }

  lemma RecordedLeaves(w: World, who: nat, c: Course)
    requires SerialInv(w) && Flies(w, who) && c.ending.Returned?
    requires w.flights[who].phase == if c.ending.ok then Delivered else Failed
    requires w.gs[w.flights[who].id].attempts == w.flights[who].attemptsRead < 5
    requires w.gs[w.flights[who].id].status == Status.Dispatching
    ensures var id, w' := w.flights[who].id, Step(w, EndDispatch(who));
      id < |w'.gs| && LeftBy(w'.gs[id], c, w.flights[who].attemptsRead)
  {
    RecordedIsAttendedExactly(w, who);
  }

  lemma CrashLeaves(w: World, who: nat, c: Course)
    requires Flies(w, who) && !c.ending.Returned?
    requires w.gs[w.flights[who].id].attempts == w.flights[who].attemptsRead < 5
    requires w.gs[w.flights[who].id].status == Status.Dispatching
    ensures var id, w' := w.flights[who].id, Step(w, Crash(who));
      id < |w'.gs| && LeftBy(w'.gs[id], c, w.flights[who].attemptsRead)
  {
  }

  /**
   Nobody is left behind by a dispatch, however it ends, raising included.  On a route that is switched off the
   complaint waits for an official; otherwise it is submitted exactly when the department took it, has failed
   exactly with the fifth refusal, and else is where the sweep for interrupted dispatches finds it.
   */
  lemma DispatchLeavesNobodyBehind(w: World, who: nat, id: nat, c: Course)
    requires SerialInv(w) && id < |w.gs| && who !in w.flights && Undisturbed(w, who, id, c)
    ensures var w' := AfterDispatch(w, who, id, c);
      && id < |w'.gs| && (Attended(w'.gs[id]) || w'.gs[id].status in {Submitted, DispatchFailed})
      && (w.gs[id].dispatchEnabled == Some(false) ==>
            w'.gs[id].status == Registered && w'.gs[id].review == Some(PendingOfficial) && w'.logs == w.logs)
      && (w.gs[id].dispatchEnabled != Some(false) ==> LeftBy(w'.gs[id], c, w.gs[id].attempts))
  {
    if w.gs[id].dispatchEnabled == Some(false) {
      SwitchedOffWaitsForAnOfficial(w, who, id);
    } else {
      EnabledDispatchLeaves(w, who, id, c);
    }
  }

  lemma EnabledDispatchLeaves(w: World, who: nat, id: nat, c: Course)
    requires SerialInv(w) && id < |w.gs| && who !in w.flights && Undisturbed(w, who, id, c)
    requires w.gs[id].dispatchEnabled != Some(false)
    ensures var w' := AfterDispatch(w, who, id, c); id < |w'.gs| && LeftBy(w'.gs[id], c, w.gs[id].attempts)
  {
    var started := Step(w, StartDispatch(who, id));
    SetsOut(w, who, id);
    StillOnItsWay(started, who, id, c.before, Calling);
    var ready := Run(Step, started, c.before);
    if c.ending.RaisedBefore? {
      CrashLeaves(ready, who, c);
    } else {
      var called := Step(ready, CallDispatcher(who, c.ending.ok));
      HasCalled(ready, who, c.ending.ok);
      StillOnItsWay(called, who, id, c.after, if c.ending.ok then Delivered else Failed);
      if c.ending.Returned? {
        RecordedLeaves(Run(Step, called, c.after), who, c);
      } else {
        CrashLeaves(Run(Step, called, c.after), who, c);
      }
    }
  }

  // ----- every run -----

  /** The event takes a registered complaint away from the official it waits for. */
  predicate TakesReviewBack(w: World, e: Event, id: nat)
    requires id < |w.gs|
  {
    && w.gs[id].status == Registered && w.gs[id].review == Some(PendingOfficial)
    && (|| (e.Review? && e.id == id && e.review != PendingOfficial)
        || (WritesReextraction(w, e, id) && e.columns.needsReview == Some(false)))
  }

  lemma RowIsSeenTo(g: Grievance, l: Log, crew: map<nat, Flight>)
    requires RowOk(g) && SerialOk(g, l, crew)
    ensures Attended(g) || Resting(g) <==> g.status != Registered || g.review == Some(PendingOfficial)
  {
    WindowsAreAttended(g);
  }

  /**
   At any time of any run in which callers keep their discipline and dispatches of a complaint do not overlap,
   the only complaint nobody sees to is a registered one that waits for no official.
   */
  lemma EveryComplaintIsSeenTo(w: World, es: seq<Event>, id: nat)
    requires Initial(w) && Allowed(Step, InTurnAndAlone, w, es)
    ensures var w' := Run(Step, w, es);
      id < |w'.gs| ==>
        (Attended(w'.gs[id]) || Resting(w'.gs[id]) <==>
           w'.gs[id].status != Registered || w'.gs[id].review == Some(PendingOfficial))
  {
    RunKeepsSerial(w, es);
    var w' := Run(Step, w, es);
    if id < |w'.gs| {
      RowIsSeenTo(w'.gs[id], w'.logs[id], Crew(w'.flights, id));
    }
  }

  /** And a complaint gets there exactly as an urgent one that is confirmed, or by losing its official. */
  lemma ComplaintIsDroppedExactly(w: World, e: Event, id: nat)
    requires SerialInv(w) && InTurnAndAlone(w, e) && id < |w.gs| && (Attended(w.gs[id]) || Resting(w.gs[id]))
    ensures id < |Step(w, e).gs|
    ensures !Attended(Step(w, e).gs[id]) && !Resting(Step(w, e).gs[id]) <==>
      (e.Finalize? && e.id == id && Urgent(w.gs[id])) || TakesReviewBack(w, e, id)
  {
    StepKeepsSerial(w, e);
    SizesAfter(w, e);
    RowIsSeenTo(w.gs[id], w.logs[id], Crew(w.flights, id));
    var w' := Step(w, e);
    RowIsSeenTo(w'.gs[id], w'.logs[id], Crew(w'.flights, id));
    RegisteredWithoutOfficial(w, e, id);
  }

  lemma RegisteredWithoutOfficial(w: World, e: Event, id: nat)
    requires id < |w.gs| && InTurn(w, e) && id < |Step(w, e).gs|
    requires w.gs[id].status != Registered || w.gs[id].review == Some(PendingOfficial)
    ensures var g' := Step(w, e).gs[id];
      g'.status == Registered && g'.review != Some(PendingOfficial) <==>
      (e.Finalize? && e.id == id && Urgent(w.gs[id])) || TakesReviewBack(w, e, id)
  {
    if e.Finalize? && e.id < |w.gs| {
      FinalizedOfficial(w, e.id, e.now, id);
    } else if !e.Create? && !e.Finalize? {
      TouchesOneRow(w, e);
    }
  }

  lemma FinalizedOfficial(w: World, i: nat, now: Time, id: nat)
    requires i < |w.gs| && id < |w.gs|
    ensures var gs' := Finalized(w.gs, i, now, w.settings);
      && |gs'| == |w.gs|
      && (i != id ==> gs'[id].status == w.gs[id].status && gs'[id].review == w.gs[id].review)
      && (i == id ==> (gs'[id].status == Registered && gs'[id].review != Some(PendingOfficial) <==> Urgent(w.gs[id])))
  {
    VerdictExactly(w.gs, i, now, w.settings);
    RowsAfterFinalize(w.gs, i, now, w.settings);
  }
}
