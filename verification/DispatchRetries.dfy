/**
 Dispatch retries.  A dispatcher commits the status before its call and records the answer after it, and
 the sweep for interrupted dispatches cannot tell a dispatch that crashed from one that is under way.
 */
module DispatchRetries {
  import opened Wrappers
  import opened Clock
  import opened Runs
  import opened Grievances
  import opened Lifecycle

  /** The dispatchers at work on one row. */
  function Crew(flights: map<nat, Flight>, id: nat): map<nat, Flight> {
    map who | who in flights && flights[who].id == id :: flights[who]
  }

  function InPhase(crew: map<nat, Flight>, phase: Phase): set<nat> {
    set who | who in crew && crew[who].phase == phase
  }

  lemma CrewAfter(flights: map<nat, Flight>, who: nat, f: Flight, id: nat)
    requires who in flights ==> flights[who].id == f.id
    ensures Crew(flights[who := f], id) == if id == f.id then Crew(flights, id)[who := f] else Crew(flights, id)
  {
  }

  lemma CrewWithout(flights: map<nat, Flight>, who: nat, id: nat)
    ensures Crew(flights - {who}, id) == Crew(flights, id) - {who}
    ensures who in flights && flights[who].id != id ==> Crew(flights - {who}, id) == Crew(flights, id)
  {
  }

  // ----- every call is accounted for, in every run -----

  predicate Accounted(l: Log, crew: map<nat, Flight>) {
    && l.failures == l.recordedFailures + l.lostFailures + |InPhase(crew, Failed)|
    && l.deliveries == l.recordedDeliveries + l.lostDeliveries + |InPhase(crew, Delivered)|
  }

  ghost predicate AccountsOk(w: World) {
    && |w.logs| == |w.gs|
    && (forall who :: who in w.flights ==> w.flights[who].id < |w.gs|)
    && (forall id :: 0 <= id < |w.logs| ==> Accounted(w.logs[id], Crew(w.flights, id)))
  }

  lemma NewcomerAccounted(l: Log, crew: map<nat, Flight>, who: nat, f: Flight)
    requires Accounted(l, crew) && who !in crew && f.phase.Calling?
    ensures Accounted(l, crew[who := f])
  {
    assert InPhase(crew[who := f], Failed) == InPhase(crew, Failed);
    assert InPhase(crew[who := f], Delivered) == InPhase(crew, Delivered);
  }

  lemma CallAccounted(l: Log, crew: map<nat, Flight>, who: nat, ok: bool)
    requires Accounted(l, crew) && who in crew && crew[who].phase.Calling?
    ensures Accounted(AfterCall(l, ok), crew[who := crew[who].(phase := if ok then Delivered else Failed)])
  {
    var crew' := crew[who := crew[who].(phase := if ok then Delivered else Failed)];
    assert InPhase(crew', Failed) == InPhase(crew, Failed) + if ok then {} else {who};
    assert InPhase(crew', Delivered) == InPhase(crew, Delivered) + if ok then {who} else {};
  }

  lemma EndAccounted(l: Log, crew: map<nat, Flight>, who: nat)
    requires Accounted(l, crew) && who in crew
    ensures !crew[who].phase.Calling? ==> Accounted(AfterRecord(l, crew[who].phase), crew - {who})
    ensures Accounted(AfterCrash(l, crew[who].phase), crew - {who})
  {
    assert InPhase(crew - {who}, Failed) == InPhase(crew, Failed) - {who};
    assert InPhase(crew - {who}, Delivered) == InPhase(crew, Delivered) - {who};
  }

  lemma StartKeepsAccounts(w: World, who: nat, id: nat)
    requires AccountsOk(w)
    ensures AccountsOk(StartStep(w, who, id))
  {
    var w' := StartStep(w, who, id);
    if who in w'.flights && who !in w.flights {
      var f := w'.flights[who];
      forall k { CrewAfter(w.flights, who, f, k); }
      NewcomerAccounted(w.logs[id], Crew(w.flights, id), who, f);
    }
  }

  lemma CallKeepsAccounts(w: World, who: nat, ok: bool)
    requires AccountsOk(w)
    ensures AccountsOk(CallStep(w, who, ok))
  {
    if Flies(w, who) && w.flights[who].phase.Calling? {
      var f := w.flights[who];
      forall k { CrewAfter(w.flights, who, f.(phase := if ok then Delivered else Failed), k); }
      CallAccounted(w.logs[f.id], Crew(w.flights, f.id), who, ok);
    }
  }

  lemma EndKeepsAccounts(w: World, who: nat)
    requires AccountsOk(w)
    ensures AccountsOk(EndStep(w, who)) && AccountsOk(CrashStep(w, who))
  {
    if Flies(w, who) {
      var f := w.flights[who];
      forall k { CrewWithout(w.flights, who, k); }
      EndAccounted(w.logs[f.id], Crew(w.flights, f.id), who);
    }
  }

  /** The steps that neither start nor end a dispatch. */
  predicate Elsewhere(e: Event) {
    !(e.StartDispatch? || e.CallDispatcher? || e.EndDispatch? || e.Crash?)
  }

  lemma ElsewhereFrame(w: World, e: Event)
    requires Elsewhere(e)
    ensures var w' := Step(w, e);
            && w'.flights == w.flights
            && (e.Create? ==> |w'.gs| == |w.gs| + 1 && w'.logs == w.logs + [NOTHING])
            && (!e.Create? ==> |w'.gs| == |w.gs| && w'.logs == w.logs)
  {
    if e.Finalize? && e.id < |w.gs| { VerdictIsSound(w.gs, e.id, e.now, w.settings); }
  }

  lemma StepKeepsAccounts(w: World, e: Event)
    requires AccountsOk(w)
    ensures AccountsOk(Step(w, e))
  {
    match e
    case StartDispatch(who, id) => StartKeepsAccounts(w, who, id);
    case CallDispatcher(who, ok) => CallKeepsAccounts(w, who, ok);
    case EndDispatch(who) => EndKeepsAccounts(w, who);
    case Crash(who) => EndKeepsAccounts(w, who);
    case _ =>
      ElsewhereFrame(w, e);
      assert Crew(w.flights, |w.gs|) == map[];
  }

  /**
   In every run, with dispatches of one complaint overlapping or not: each failing call and each delivery
   is recorded, lost with a dispatcher that crashed, or in the hands of one that is still at work.
   */
  lemma CallsAreAccountedFor(w: World, es: seq<Event>, id: nat)
    requires Initial(w)
    ensures var w' := Run(Step, w, es);
            |w'.logs| == |w'.gs| && (id < |w'.gs| ==> Accounted(w'.logs[id], Crew(w'.flights, id)))
  {
    forall t, e | AccountsOk(t) && Any(t, e) ensures AccountsOk(Step(t, e)) { StepKeepsAccounts(t, e); }
    AnythingAllowed(Step, w, es);
    Invariance(Step, Any, AccountsOk, w, es);
  }

  // ----- dispatches of one complaint that do not overlap -----

  /** At most one dispatcher, which has read the row as it is; every recorded call shows on the row. */
  ghost predicate SerialOk(g: Grievance, l: Log, crew: map<nat, Flight>) {
    && (forall who :: who in crew ==> g.status == Status.Dispatching && crew[who].attemptsRead == g.attempts)
    && (forall p, q :: p in crew && q in crew ==> p == q)
    && (g.status == DispatchFailed <==> g.attempts == MAX_DISPATCH_ATTEMPTS)
    && g.attempts <= MAX_DISPATCH_ATTEMPTS
    && l.recordedFailures == g.attempts
    && l.recordedDeliveries == (if g.status == Submitted then 1 else 0)
  }

  ghost predicate RowsSerial(w: World) {
    |w.logs| == |w.gs| && forall id :: 0 <= id < |w.gs| ==> SerialOk(w.gs[id], w.logs[id], Crew(w.flights, id))
  }

  ghost predicate SerialInv(w: World) {
    Inv(w) && AccountsOk(w) && RowsSerial(w)
  }

  /** Steps elsewhere leave the attempts alone, and the status too unless the citizen has not confirmed yet. */
  predicate LeftAlone(g: Grievance, g': Grievance) {
    && g'.attempts == g.attempts
    && (g'.status == g.status || (PreFinal(g.status) && g'.status !in {Submitted, DispatchFailed}))
  }

  lemma StaysSerial(g: Grievance, g': Grievance, l: Log, crew: map<nat, Flight>)
    requires SerialOk(g, l, crew) && LeftAlone(g, g')
    ensures SerialOk(g', l, crew)
  {
  }

  lemma FinalizeLeavesAlone(w: World, i: nat, now: Time, id: nat)
    requires InTurn(w, Finalize(i, now)) && i < |w.gs| && id < |w.gs|
    ensures |Finalized(w.gs, i, now, w.settings)| == |w.gs|
    ensures LeftAlone(w.gs[id], Finalized(w.gs, i, now, w.settings)[id])
  {
    VerdictIsSound(w.gs, i, now, w.settings);
  }

  lemma ElsewhereLeavesAlone(w: World, e: Event, id: nat)
    requires InTurn(w, e) && Elsewhere(e) && id < |w.gs|
    ensures id < |Step(w, e).gs| && LeftAlone(w.gs[id], Step(w, e).gs[id])
  {
    if e.Finalize? && e.id < |w.gs| { FinalizeLeavesAlone(w, e.id, e.now, id); }
  }

  lemma ElsewhereKeepsSerial(w: World, e: Event)
    requires RowsSerial(w) && AccountsOk(w) && InTurn(w, e) && Elsewhere(e)
    ensures RowsSerial(Step(w, e))
  {
    var w' := Step(w, e);
    ElsewhereFrame(w, e);
    forall id | 0 <= id < |w'.gs| ensures SerialOk(w'.gs[id], w'.logs[id], Crew(w'.flights, id)) {
      if id < |w.gs| {
        ElsewhereLeavesAlone(w, e, id);
        StaysSerial(w.gs[id], w'.gs[id], w.logs[id], Crew(w.flights, id));
      } else {
        assert Crew(w.flights, id) == map[];
      }
    }
  }

  lemma OneRowSerial(w: World, w': World, id: nat)
    requires RowsSerial(w) && id < |w.gs| && |w'.gs| == |w'.logs| == |w.gs|
    requires forall k :: 0 <= k < |w.gs| && k != id ==>
      w'.gs[k] == w.gs[k] && w'.logs[k] == w.logs[k] && Crew(w'.flights, k) == Crew(w.flights, k)
    requires SerialOk(w'.gs[id], w'.logs[id], Crew(w'.flights, id))
    ensures RowsSerial(w')
  {
  }

  lemma StartKeepsSerial(w: World, who: nat, id: nat)
    requires RowsSerial(w) && InTurnAndAlone(w, StartDispatch(who, id))
    ensures RowsSerial(StartStep(w, who, id))
  {
    var w' := StartStep(w, who, id);
    if id < |w.gs| && who !in w.flights {
      assert Crew(w.flights, id) == map[];
      assert SerialOk(w.gs[id], w.logs[id], map[]);
      if who in w'.flights {
        forall k { CrewAfter(w.flights, who, w'.flights[who], k); }
      }
      OneRowSerial(w, w', id);
    }
  }

  lemma CallKeepsSerial(w: World, who: nat, ok: bool)
    requires RowsSerial(w)
    ensures RowsSerial(CallStep(w, who, ok))
  {
    if Flies(w, who) && w.flights[who].phase.Calling? {
      var f := w.flights[who];
      assert SerialOk(w.gs[f.id], w.logs[f.id], Crew(w.flights, f.id));
      assert who in Crew(w.flights, f.id);
      forall k { CrewAfter(w.flights, who, f.(phase := if ok then Delivered else Failed), k); }
      OneRowSerial(w, CallStep(w, who, ok), f.id);
    }
  }

  /** The one dispatcher leaves: nobody is at work on the row. */
  lemma LastLeaves(g: Grievance, l: Log, crew: map<nat, Flight>, who: nat)
    requires SerialOk(g, l, crew) && who in crew
    ensures crew - {who} == map[] && g.status == Status.Dispatching && crew[who].attemptsRead == g.attempts
  {
  }

  lemma EndKeepsSerial(w: World, who: nat)
    requires RowsSerial(w)
    ensures RowsSerial(EndStep(w, who)) && RowsSerial(CrashStep(w, who))
  {
    if Flies(w, who) {
      var f := w.flights[who];
      assert SerialOk(w.gs[f.id], w.logs[f.id], Crew(w.flights, f.id));
      assert who in Crew(w.flights, f.id);
      LastLeaves(w.gs[f.id], w.logs[f.id], Crew(w.flights, f.id), who);
      forall k { CrewWithout(w.flights, who, k); }
      OneRowSerial(w, CrashStep(w, who), f.id);
      if !f.phase.Calling? { OneRowSerial(w, EndStep(w, who), f.id); }
    }
  }

  lemma StepKeepsSerial(w: World, e: Event)
    requires SerialInv(w) && InTurnAndAlone(w, e)
    ensures SerialInv(Step(w, e))
  {
    StepKeepsInv(w, e);
    StepKeepsAccounts(w, e);
    StepKeepsRowsSerial(w, e);
  }

  lemma StepKeepsRowsSerial(w: World, e: Event)
    requires RowsSerial(w) && AccountsOk(w) && InTurnAndAlone(w, e)
    ensures RowsSerial(Step(w, e))
  {
    match e
    case StartDispatch(who, id) => StartKeepsSerial(w, who, id);
    case CallDispatcher(who, ok) => CallKeepsSerial(w, who, ok);
    case EndDispatch(who) => EndKeepsSerial(w, who);
    case Crash(who) => EndKeepsSerial(w, who);
    case _ => ElsewhereKeepsSerial(w, e);
  }

  lemma RunKeepsSerial(w: World, es: seq<Event>)
    requires SerialInv(w) && Allowed(Step, InTurnAndAlone, w, es)
    ensures SerialInv(Run(Step, w, es))
  {
    forall t, e | SerialInv(t) && InTurnAndAlone(t, e) ensures SerialInv(Step(t, e)) { StepKeepsSerial(t, e); }
    Invariance(Step, InTurnAndAlone, SerialInv, w, es);
  }

  lemma AtMostOneInPhase(crew: map<nat, Flight>, phase: Phase)
    requires forall p, q :: p in crew && q in crew ==> p == q
    ensures |InPhase(crew, phase)| <= 1
    ensures InPhase(crew, phase) != {} ==> crew != map[]
  {
    if who :| who in InPhase(crew, phase) {
      assert InPhase(crew, phase) == {who};
    }
  }

  /**
   If no two dispatches of one complaint overlap, retries are bounded: failing calls exceed the five
   counted ones only by failures lost in a crash, deliveries exceed one only by lost deliveries, and only
   a row in dispatch is being dispatched, so no duplicate, cancelled or finished complaint is.
   */
  lemma DispatchIsBounded(w: World, es: seq<Event>, id: nat)
    requires Initial(w) && Allowed(Step, InTurnAndAlone, w, es)
    ensures var w' := Run(Step, w, es);
            |w'.logs| == |w'.gs| &&
            (id < |w'.gs| ==>
               var g, l, crew := w'.gs[id], w'.logs[id], Crew(w'.flights, id);
               && l.failures <= MAX_DISPATCH_ATTEMPTS + l.lostFailures
               && l.deliveries <= 1 + l.lostDeliveries
               && (g.status == Submitted ==> l.deliveries == 1 + l.lostDeliveries)
               && l.recordedFailures == g.attempts
               && (g.status == DispatchFailed <==> g.attempts == MAX_DISPATCH_ATTEMPTS)
               && (crew != map[] ==> g.status == Status.Dispatching))
  {
    RunKeepsSerial(w, es);
    var w' := Run(Step, w, es);
    if id < |w'.gs| {
      RowIsBounded(w'.gs[id], w'.logs[id], Crew(w'.flights, id));
    }
  }

  lemma RowIsBounded(g: Grievance, l: Log, crew: map<nat, Flight>)
    requires SerialOk(g, l, crew) && Accounted(l, crew)
    ensures l.failures <= MAX_DISPATCH_ATTEMPTS + l.lostFailures && l.deliveries <= 1 + l.lostDeliveries
    ensures g.status == Submitted ==> l.deliveries == 1 + l.lostDeliveries
    ensures l.recordedFailures == g.attempts && (g.status == DispatchFailed <==> g.attempts == MAX_DISPATCH_ATTEMPTS)
    ensures crew != map[] ==> g.status == Status.Dispatching
  {
    AtMostOneInPhase(crew, Failed);
    AtMostOneInPhase(crew, Delivered);
    if crew != map[] {
      var who :| who in crew;
    }
  }

  // ----- and dispatches that do -----

  /**
   The exact step at which a recorded failure does not count: it was read from the row before another
   failure of the same complaint was recorded.
   */
  lemma FailureIsUncountedExactly(w: World, who: nat)
    requires Flies(w, who) && w.flights[who].phase == Failed
    ensures var f := w.flights[who];
            && f.id < |Step(w, EndDispatch(who)).gs|
            && (Step(w, EndDispatch(who)).gs[f.id].attempts <= w.gs[f.id].attempts <==>
                  f.attemptsRead < w.gs[f.id].attempts)
  {
  }

  ghost predicate Overlapping(crew: map<nat, Flight>) {
    exists p, q :: p in crew && q in crew && p != q
  }

  /** The exact step at which two dispatches of a complaint begin to overlap: one starts while one is under way. */
  lemma OverlapBeginsExactly(w: World, e: Event, id: nat)
    requires AccountsOk(w) && id < |w.gs| && !Overlapping(Crew(w.flights, id))
    ensures Overlapping(Crew(Step(w, e).flights, id)) <==>
      && e.StartDispatch? && e.id == id && e.who !in w.flights && w.gs[id].dispatchEnabled != Some(false)
      && Crew(w.flights, id) != map[]
  {
    var crew, crew' := Crew(w.flights, id), Crew(Step(w, e).flights, id);
    if e.StartDispatch? && e.who !in w.flights && e.id == id && w.gs[id].dispatchEnabled != Some(false) {
      CrewAfter(w.flights, e.who, Flight(id, Calling, w.gs[id].attempts), id);
      assert e.who in crew' && e.who !in crew;
      assert forall p :: p in crew' <==> p == e.who || p in crew;
      if p :| p in crew {
        assert p in crew' && p != e.who;
      } else {
        assert forall q :: q in crew' ==> q == e.who;
      }
    } else {
      NobodyJoins(w, e, id);
    }
  }

  lemma NobodyJoins(w: World, e: Event, id: nat)
    requires id < |w.gs|
    requires !(e.StartDispatch? && e.who !in w.flights && e.id == id && w.gs[id].dispatchEnabled != Some(false))
    ensures forall who :: who in Crew(Step(w, e).flights, id) ==> who in Crew(w.flights, id)
  {
  }

  // ----- finished complaints -----

  predicate Finished(s: Status) {
    s in {Submitted, DispatchFailed, Status.Duplicate, Cancelled}
  }

  /** In turn and with dispatches alone, a finished complaint stays as it ended. */
  lemma FinishedStaysFinished(w: World, e: Event, id: nat)
    requires SerialInv(w) && InTurnAndAlone(w, e) && id < |w.gs| && Finished(w.gs[id].status)
    ensures id < |Step(w, e).gs| && Step(w, e).gs[id].status == w.gs[id].status
  {
    if Elsewhere(e) {
      ElsewhereLeavesAlone(w, e, id);
    } else {
      assert SerialOk(w.gs[id], w.logs[id], Crew(w.flights, id));
      DispatchSparesFinished(w, e, id);
    }
  }

  lemma DispatchSparesFinished(w: World, e: Event, id: nat)
    requires InTurn(w, e) && !Elsewhere(e) && id < |w.gs| && Finished(w.gs[id].status)
    requires forall who :: who in Crew(w.flights, id) ==> w.gs[id].status == Status.Dispatching
    ensures id < |Step(w, e).gs| && Step(w, e).gs[id].status == w.gs[id].status
  {
    assert forall who :: who in w.flights && w.flights[who].id == id ==> who in Crew(w.flights, id);
  }

  /** The event writes a pipeline run or photo check of the row back. */
  predicate WritesChecked(w: World, e: Event, id: nat) {
    e.WriteChecked? && e.who in w.readings && w.readings[e.who].id == id
  }

  /**
   Exactly which steps take a complaint out of a finished status, whatever the callers do: a pipeline run
   or photo check that had loaded it in another status than it sets; a confirmation that does not find a
   duplicate; and the start of a dispatch.
   */
  lemma FinishedIsLeftExactly(w: World, e: Event, id: nat)
    requires id < |w.gs| && Finished(w.gs[id].status)
    ensures id < |Step(w, e).gs|
    ensures !Finished(Step(w, e).gs[id].status) <==>
      || (WritesChecked(w, e, id) && w.readings[e.who].seen != Next(e.mismatch))
      || (e.Finalize? && e.id == id && !Decide(w.gs, id, e.now, w.settings).DuplicateOf?)
      || (e.StartDispatch? && e.id == id && e.who !in w.flights)
  {
    if e.Finalize? && e.id < |w.gs| {
      FinalizeStatus(w.gs, e.id, e.now, w.settings, id);
    } else if !e.Create? && !e.Finalize? {
      TouchesOneRow(w, e);
    }
  }

  lemma FinalizeStatus(gs: seq<Grievance>, i: nat, now: Time, s: Settings, id: nat)
    requires i < |gs| && id < |gs|
    ensures var gs', v := Finalized(gs, i, now, s), Decide(gs, i, now, s);
      && |gs'| == |gs|
      && gs'[id].status == if id != i then gs[id].status
                           else if v.DuplicateOf? then Status.Duplicate
                           else if v.OpenWindow? then PendingWindow else Registered
  {
    VerdictIsSound(gs, i, now, s);
  }
}
