/**
 The audit timeline, and who will see to a complaint.  Sessions that wait for a model hold on to the row as
 they loaded it; what they write back afterwards can be about a status that the row has left.
 */
module Timeline {
  import opened Wrappers
  import opened Clock
  import opened Runs
  import opened Grievances
  import opened Lifecycle
  import opened DispatchRetries

  /** The last entry of the timeline is `s`. */
  predicate EndsIn(g: Grievance, s: Status) {
    g.timeline != [] && g.timeline[|g.timeline| - 1] == s
  }

  /** The timeline ends in the status the row has. */
  predicate EndsInStatus(g: Grievance) { EndsIn(g, g.status) }

  /** The event writes a re-extraction of the row back. */
  predicate WritesReextraction(w: World, e: Event, id: nat) {
    e.WriteReextraction? && e.who in w.readings && w.readings[e.who].id == id
  }

  /** The event starts a dispatch of the row on an enabled route. */
  predicate Launches(w: World, e: Event, id: nat) {
    e.StartDispatch? && e.id == id && id < |w.gs| && e.who !in w.flights && w.gs[id].dispatchEnabled != Some(false)
  }

  /** The event moves the row and says so: confirmation, cancellation, a refused route, a final answer. */
  predicate Announces(w: World, e: Event, id: nat)
    requires id < |w.gs| <= |w.logs|
  {
    || (e.Finalize? && e.id == id)
    || (e.Cancel? && e.id == id)
    || (e.StartDispatch? && e.id == id && e.who !in w.flights && w.gs[id].dispatchEnabled == Some(false))
    || (e.EndDispatch? && e.who in w.flights && w.flights[e.who].id == id
        && (w.flights[e.who].phase.Delivered?
            || (w.flights[e.who].phase.Failed? && w.flights[e.who].attemptsRead + 1 >= MAX_DISPATCH_ATTEMPTS)))
  }

  lemma FinalizeEnds(gs: seq<Grievance>, i: nat, now: Time, s: Settings, id: nat)
    requires i < |gs| && id < |gs|
    ensures var gs' := Finalized(gs, i, now, s);
      && |gs'| == |gs|
      && (i != id ==> gs'[id].status == gs[id].status && gs'[id].timeline == gs[id].timeline)
      && (i == id ==> EndsInStatus(gs'[id]))
  {
    VerdictIsSound(gs, i, now, s);
  }

  /** A complaint starts as a draft, or in processing, counts itself, and has nothing behind it yet. */
  lemma DraftedRow(w: World, g: Grievance)
    ensures Step(w, Create(g)).gs == w.gs + [
      Grievance(if g.status == Processing then Processing else Draft, g.category, g.priority, g.disposition, g.review,
                g.dispatchEnabled, g.place, 1, None, None, None, 0, [])]
  {
  }

  /** The routing columns of `g'` are those handed over, and `g`'s where none is; nothing else of it is told here. */
  ghost predicate ColumnsWritten(g: Grievance, g': Grievance, c: Columns) {
    && g'.category == (if c.category == None then g.category else c.category)
    && g'.priority == (if c.priority == None then g.priority else c.priority)
    && g'.disposition == (if c.disposition == None then g.disposition else c.disposition)
    && g'.dispatchEnabled == (if c.dispatchEnabled == None then g.dispatchEnabled else c.dispatchEnabled)
  }

  /** What no write-back touches. */
  ghost predicate RestKept(g: Grievance, g': Grievance) {
    && g'.place == g.place && g'.reportCount == g.reportCount && g'.duplicateOf == g.duplicateOf
    && g'.windowEnds == g.windowEnds && g'.confirmedAt == g.confirmedAt && g'.attempts == g.attempts
  }

  ghost predicate ReviewWritten(g: Grievance, g': Grievance, needsReview: Option<bool>) {
    && (needsReview == Some(true) ==> g'.review == Some(PendingOfficial))
    && (needsReview == Some(false) ==> g'.review == Some(CitizenReview))
    && (needsReview == None ==> g'.review == g.review)
  }

  /**
   What a session that has waited for a model, an official or a cancellation leaves on its row, column by column.
   No other row changes.
   */
  lemma WriteBackExactly(w: World, e: Event, id: nat)
    requires id < |w.gs|
    requires WritesReextraction(w, e, id) || WritesChecked(w, e, id) || ((e.Review? || e.Cancel?) && e.id == id)
    ensures Step(w, e).gs == w.gs[id := Step(w, e).gs[id]]
    ensures RestKept(w.gs[id], Step(w, e).gs[id])
    ensures e.Cancel? || ColumnsWritten(w.gs[id], Step(w, e).gs[id], e.columns)
    ensures e.WriteReextraction? || e.WriteChecked? ==>
      ReviewWritten(w.gs[id], Step(w, e).gs[id], e.columns.needsReview)
    ensures e.WriteReextraction? ==>
      var g, g' := w.gs[id], Step(w, e).gs[id];
      g'.status == g.status && g'.timeline == g.timeline + [w.readings[e.who].seen]
    ensures e.WriteChecked? ==>
      var g, g', seen := w.gs[id], Step(w, e).gs[id], w.readings[e.who].seen;
      var next := if e.mismatch then PhotoMismatch else AwaitingConfirmation;
      g'.timeline == g.timeline + [next] && g'.status == if seen == next then g.status else next
    ensures e.Review? ==>
      var g, g' := w.gs[id], Step(w, e).gs[id];
      g'.review == Some(e.review) && g'.status == g.status && g'.timeline == g.timeline
    ensures e.Cancel? ==>
      var g := w.gs[id];
      Step(w, e).gs[id] == g.(status := Cancelled, timeline := g.timeline + [Cancelled])
  {
    TouchesOneRow(w, e);
  }

  /**
   Exactly when does a step leave the timeline ending in the row's status?  A re-extraction written back:
   when the status it loaded is the status still.  A pipeline run or photo check written back: when it had
   loaded another status than it sets - then it writes the column - or the row has that status anyway.  A
   step that announces its move: always.  The start of a dispatch, which does not: when the row had been
   dispatched before and the timeline says so.  Any other step: when it did before.
   */
  lemma TimelineEndsInStatusExactly(w: World, e: Event, id: nat)
    requires id < |w.gs| <= |w.logs|
    ensures id < |Step(w, e).gs|
    ensures EndsInStatus(Step(w, e).gs[id]) <==>
      if WritesReextraction(w, e, id) then w.readings[e.who].seen == w.gs[id].status
      else if WritesChecked(w, e, id) then
        w.readings[e.who].seen != Next(e.mismatch) || w.gs[id].status == Next(e.mismatch)
      else if Announces(w, e, id) then true
      else if Launches(w, e, id) then EndsIn(w.gs[id], Status.Dispatching)
      else EndsInStatus(w.gs[id])
  {
    if e.Finalize? && e.id < |w.gs| {
      FinalizeEnds(w.gs, e.id, e.now, w.settings, id);
    } else if !e.Create? && !e.Finalize? {
      TouchesOneRow(w, e);
    }
  }

  lemma OneEntryMore(timeline: seq<Status>, entry: Status, s: Status)
    ensures multiset(timeline + [entry])[s] == multiset(timeline)[s] + if entry == s then 1 else 0
  {
  }

  /** What a step other than Create and Finalize adds to the timeline of the row it touches. */
  function Entry(w: World, e: Event): Option<Status>
    requires Touched(w, e).Some? && Touched(w, e).value < |w.gs|
  {
    match e
    case WriteReextraction(who, _) => Some(w.readings[who].seen)
    case WriteChecked(_, _, mismatch) => Some(Next(mismatch))
    case Cancel(_) => Some(Cancelled)
    case StartDispatch(_, id) => if w.gs[id].dispatchEnabled == Some(false) then Some(Registered) else None
    case EndDispatch(who) =>
      var f := w.flights[who];
      if f.phase.Delivered? then Some(Submitted)
      else if f.attemptsRead + 1 >= MAX_DISPATCH_ATTEMPTS then Some(DispatchFailed) else None
    case _ => None
  }

  lemma EntryIsAdded(w: World, e: Event)
    requires !e.Create? && !e.Finalize? && Touched(w, e).Some? && Touched(w, e).value < |w.gs|
    ensures var id := Touched(w, e).value;
      && id < |Step(w, e).gs|
      && Step(w, e).gs[id].timeline
         == if Entry(w, e).Some? then w.gs[id].timeline + [Entry(w, e).value] else w.gs[id].timeline
  {
  }

  /** Draft, processing and dispatching enter a timeline only from a re-extraction that had loaded them. */
  lemma UnrecordedStatuses(w: World, e: Event, id: nat, s: Status)
    requires id < |w.gs| && s in {Draft, Processing, Status.Dispatching}
    ensures id < |Step(w, e).gs|
    ensures multiset(Step(w, e).gs[id].timeline)[s] != multiset(w.gs[id].timeline)[s] <==>
      WritesReextraction(w, e, id) && w.readings[e.who].seen == s
  {
    if e.Finalize? && e.id < |w.gs| {
      FinalizeAdds(w.gs, e.id, e.now, w.settings, id, s);
    } else if !e.Create? && !e.Finalize? {
      TouchesOneRow(w, e);
      if Touched(w, e) == Some(id) {
        EntryIsAdded(w, e);
        if Entry(w, e).Some? { OneEntryMore(w.gs[id].timeline, Entry(w, e).value, s); }
      }
    }
  }

  lemma FinalizeAdds(gs: seq<Grievance>, i: nat, now: Time, st: Settings, id: nat, s: Status)
    requires i < |gs| && id < |gs| && s in {Draft, Processing, Status.Dispatching}
    ensures var gs' := Finalized(gs, i, now, st);
      |gs'| == |gs| && multiset(gs'[id].timeline)[s] == multiset(gs[id].timeline)[s]
  {
    VerdictIsSound(gs, i, now, st);
    var t := gs[i].timeline;
    OneEntryMore(t, Registered, s);
    OneEntryMore(t + [Registered], Status.Duplicate, s);
    OneEntryMore(t + [Registered], PendingWindow, s);
  }

  /**
   Nothing is written back about a status that the row has left: a re-extraction finds the row in the
   status it loaded, and a check that loaded the row in the status it sets finds it there.
   */
  predicate Unmoved(w: World, e: Event) {
    (e.WriteReextraction? || e.WriteChecked?) && Reads(w, e.who) ==>
      var seen, status := w.readings[e.who].seen, w.gs[w.readings[e.who].id].status;
      if e.WriteReextraction? then seen == status else seen == Next(e.mismatch) ==> status == seen
  }

  ghost predicate TimelinesOk(w: World) {
    && |w.logs| == |w.gs|
    && forall id :: 0 <= id < |w.gs| ==>
         w.gs[id].status in {Draft, Processing, Status.Dispatching} || EndsInStatus(w.gs[id])
  }

  lemma OtherStepsKeepStatus(w: World, e: Event, id: nat)
    requires id < |w.gs| <= |w.logs|
    requires !WritesChecked(w, e, id) && !Announces(w, e, id) && !Launches(w, e, id)
    ensures id < |Step(w, e).gs| && Step(w, e).gs[id].status == w.gs[id].status
  {
    if e.Finalize? && e.id < |w.gs| {
      FinalizeEnds(w.gs, e.id, e.now, w.settings, id);
    } else if !e.Create? && !e.Finalize? {
      TouchesOneRow(w, e);
    }
  }

  lemma StepKeepsTimeline(w: World, e: Event, id: nat)
    requires TimelinesOk(w) && Unmoved(w, e) && id < |w.gs|
    ensures id < |Step(w, e).gs|
    ensures var g := Step(w, e).gs[id]; g.status in {Draft, Processing, Status.Dispatching} || EndsInStatus(g)
  {
    TimelineEndsInStatusExactly(w, e, id);
    if Launches(w, e, id) {
      assert Step(w, e).gs[id].status == Status.Dispatching;
    } else if !WritesReextraction(w, e, id) && !WritesChecked(w, e, id) && !Announces(w, e, id) {
      OtherStepsKeepStatus(w, e, id);
    }
  }

  lemma StepKeepsTimelines(w: World, e: Event)
    requires TimelinesOk(w) && Unmoved(w, e)
    ensures TimelinesOk(Step(w, e))
  {
    forall id | 0 <= id < |w.gs|
      ensures id < |Step(w, e).gs|
      ensures var g := Step(w, e).gs[id]; g.status in {Draft, Processing, Status.Dispatching} || EndsInStatus(g)
    {
      StepKeepsTimeline(w, e, id);
    }
    SizesAfter(w, e);
  }

  lemma SizesAfter(w: World, e: Event)
    ensures |Step(w, e).gs| - |w.gs| == |Step(w, e).logs| - |w.logs| == if e.Create? then 1 else 0
  {
    if e.Finalize? && e.id < |w.gs| {
      VerdictIsSound(w.gs, e.id, e.now, w.settings);
    } else if !e.Create? && !e.Finalize? {
      TouchesOneRow(w, e);
    }
  }

  /**
   In every run in which nothing is written back about a status that the row has left, the timeline ends
   in the current status, except for the three statuses that are not recorded.
   */
  lemma TimelineEndsInStatus(w: World, es: seq<Event>, id: nat)
    requires Initial(w) && Allowed(Step, Unmoved, w, es)
    ensures var w' := Run(Step, w, es);
            id < |w'.gs| && w'.gs[id].status !in {Draft, Processing, Status.Dispatching} ==> EndsInStatus(w'.gs[id])
  {
    forall t, e | TimelinesOk(t) && Unmoved(t, e) ensures TimelinesOk(Step(t, e)) { StepKeepsTimelines(t, e); }
    Invariance(Step, Unmoved, TimelinesOk, w, es);
  }
}
