/**
 The life of a complaint from its draft to the department: confirmation, duplicate clusters, the
 dedup window and bounded dispatch retries.
 */
module Lifecycle {
  import opened Wrappers
  import opened Clock
  import opened Runs
  import opened Grievances
  import opened Dedup
  import T = Taxonomy

  const MAX_DISPATCH_ATTEMPTS: nat := 5

  datatype Settings = Settings(geo: Geo, radius: real, window: Time)

  // ----- finalize -----

  /** What finalize_grievance makes of what it reads. */
  datatype Verdict =
    | AwaitOfficial                       // review is already pending
    | HoldForOfficial                     // the disposition needs one
    | DispatchNow
    | DuplicateOf(master: nat, newCount: nat)
    | OpenWindow

  function Decide(gs: seq<Grievance>, id: nat, now: Time, s: Settings): Verdict
    requires id < |gs|
  {
    var g := gs[id];
    if g.review == Some(PendingOfficial) then AwaitOfficial
    else if g.disposition in {Some(T.Redirect), Some(T.EmergencyRedirect), Some(T.NeedsHumanReview)} then HoldForOfficial
    else if g.priority == Some("priority") then DispatchNow
    else
      var category := if g.category.Some? && g.category.value != "" then g.category.value else "other";
      var found := Dedup.Duplicate(gs, s.geo, category, g.place, s.radius, id, now);
      if found.Some? && found.value.master < |gs|
      then DuplicateOf(found.value.master, gs[found.value.master].reportCount + 1)
      else OpenWindow
  }

  function Confirmed(g: Grievance, now: Time): Grievance {
    g.(status := Registered, confirmedAt := Some(now), timeline := g.timeline + [Registered])
  }

  function Linked(g: Grievance, master: nat, now: Time): Grievance {
    Confirmed(g, now).(status := Status.Duplicate, duplicateOf := Some(master),
                       timeline := g.timeline + [Registered] + [Status.Duplicate])
  }

  /** The write, whatever happened since the read. */
  function Commit(gs: seq<Grievance>, id: nat, v: Verdict, now: Time, s: Settings): seq<Grievance>
    requires id < |gs|
  {
    var g := gs[id];
    match v
    case AwaitOfficial => gs[id := Confirmed(g, now)]
    case HoldForOfficial => gs[id := Confirmed(g, now).(review := Some(PendingOfficial))]
    case DispatchNow => gs[id := Confirmed(g, now)]
    case DuplicateOf(m, newCount) =>
      var linked := gs[id := Linked(g, m, now)];
      if m < |gs| then linked[m := linked[m].(reportCount := newCount)] else linked
    case OpenWindow =>
      gs[id := Confirmed(g, now).(status := PendingWindow, windowEnds := Some(now + s.window),
                                  timeline := g.timeline + [Registered] + [PendingWindow])]
  }

  function Finalized(gs: seq<Grievance>, id: nat, now: Time, s: Settings): seq<Grievance>
    requires id < |gs|
  {
    Commit(gs, id, Decide(gs, id, now, s), now, s)
  }

  // ----- finalize agrees with the routing policy -----

  /** The routing fields as run_pipeline and update_review write them from a policy decision. */
  function Routed(g: Grievance, d: T.Decision): Grievance {
    g.(priority := Some(d.priority), disposition := Some(d.disposition),
       review := Some(if d.needsReview then PendingOfficial else CitizenReview))
  }

  /**
   Finalize never sees the policy's dedup flag, yet it follows it: it waits for an official exactly
   when the policy asks for one, looks for duplicates exactly when the report may be merged, and
   dispatches at once otherwise.
   */
  lemma FinalizeFollowsPolicy(gs: seq<Grievance>, id: nat, now: Time, s: Settings, t: T.Table, key: Option<string>,
                              safety: T.Safety, scope: T.AssetScope, located: bool)
    requires id < |gs| && T.Valid(t)
    requires gs[id] == Routed(gs[id], T.Policy(t, key, safety, scope, located))
    ensures var d, v := T.Policy(t, key, safety, scope, located), Decide(gs, id, now, s);
            && (v.AwaitOfficial? <==> d.needsReview)
            && (v.DuplicateOf? || v.OpenWindow? <==> d.dedupEligible)
            && (v.DispatchNow? <==> !d.needsReview && !d.dedupEligible)
  {
    T.DecisionsArePartitioned(t, key, safety, scope, located);
  }

  // ----- reports are conserved -----

  /** What a row stands for in the total: its count while it is a master. */
  function Weight(g: Grievance): nat {
    if g.duplicateOf.None? then g.reportCount else 0
  }

  function Total(gs: seq<Grievance>): nat {
    if gs == [] then 0 else Total(gs[..|gs| - 1]) + Weight(gs[|gs| - 1])
  }

  function LinksTo(gs: seq<Grievance>, m: nat): nat {
    if gs == [] then 0
    else LinksTo(gs[..|gs| - 1], m) + if gs[|gs| - 1].duplicateOf == Some(m) then 1 else 0
  }

  lemma {:induction false} TotalUpdate(gs: seq<Grievance>, i: nat, g: Grievance)
    requires i < |gs|
    ensures Total(gs[i := g]) + Weight(gs[i]) == Total(gs) + Weight(g)
  {
    var n := |gs| - 1;
    if i == n {
      assert gs[i := g][..n] == gs[..n];
    } else {
      TotalUpdate(gs[..n], i, g);
      assert gs[i := g][..n] == gs[..n][i := g];
    }
  }

  lemma {:induction false} LinksUpdate(gs: seq<Grievance>, i: nat, g: Grievance, m: nat)
    requires i < |gs|
    ensures LinksTo(gs[i := g], m) + (if gs[i].duplicateOf == Some(m) then 1 else 0)
         == LinksTo(gs, m) + (if g.duplicateOf == Some(m) then 1 else 0)
  {
    var n := |gs| - 1;
    if i == n {
      assert gs[i := g][..n] == gs[..n];
    } else {
      LinksUpdate(gs[..n], i, g, m);
      assert gs[i := g][..n] == gs[..n][i := g];
    }
  }

  lemma {:induction false} NoLinks(gs: seq<Grievance>, m: nat)
    requires forall i :: 0 <= i < |gs| ==> gs[i].duplicateOf != Some(m)
    ensures LinksTo(gs, m) == 0
  {
    if gs != [] { NoLinks(gs[..|gs| - 1], m); }
  }

  /** Duplicates link to masters, one level deep, and are counted by them. */
  ghost predicate Clustered(gs: seq<Grievance>) {
    && Total(gs) == |gs|
    && (forall i :: 0 <= i < |gs| && gs[i].duplicateOf.Some? ==>
          var m := gs[i].duplicateOf.value;
          m < |gs| && gs[m].duplicateOf.None? && gs[i].reportCount == 1)
    && (forall i :: 0 <= i < |gs| && gs[i].duplicateOf.None? ==> gs[i].reportCount == 1 + LinksTo(gs, i))
  }

  /**
   Merging is a read followed by an unlocked write.  Exactly when does the write conserve the number
   of reports?  When the count it writes is the master's current count plus the weight of the row
   being merged.
   */
  lemma MergeConservesExactly(gs: seq<Grievance>, id: nat, m: nat, newCount: nat, now: Time, s: Settings)
    requires id < |gs| && m < |gs| && id != m && gs[m].duplicateOf.None? && Total(gs) == |gs|
    ensures var gs' := Commit(gs, id, DuplicateOf(m, newCount), now, s);
            Total(gs') == |gs'| <==> newCount == gs[m].reportCount + Weight(gs[id])
  {
    var linked := gs[id := Linked(gs[id], m, now)];
    TotalUpdate(gs, id, Linked(gs[id], m, now));
    TotalUpdate(linked, m, linked[m].(reportCount := newCount));
  }

  /** With the count still current, that leaves: the row merged is a master of itself alone. */
  lemma FreshMergeConservesExactly(gs: seq<Grievance>, id: nat, now: Time, s: Settings)
    requires id < |gs| && Total(gs) == |gs|
    requires var v := Decide(gs, id, now, s); v.DuplicateOf? && v.master != id && gs[v.master].duplicateOf.None?
    ensures var gs' := Finalized(gs, id, now, s);
            Total(gs') == |gs'| <==> gs[id].duplicateOf.None? && gs[id].reportCount == 1
  {
    var v := Decide(gs, id, now, s);
    MergeConservesExactly(gs, id, v.master, v.newCount, now, s);
  }

  /** Two confirmations that both read the master's count before either writes always lose a report. */
  lemma ConcurrentMergesLoseAReport(gs: seq<Grievance>, i: nat, j: nat, m: nat, now: Time, s: Settings)
    requires i < |gs| && j < |gs| && m < |gs| && i != j && m != i && m != j && Total(gs) == |gs|
    requires Weight(gs[i]) == 1 && Weight(gs[j]) == 1 && gs[m].duplicateOf.None?
    ensures var v := DuplicateOf(m, gs[m].reportCount + 1);
            Total(Commit(Commit(gs, i, v, now, s), j, v, now, s)) == |gs| - 1
  {
    var v := DuplicateOf(m, gs[m].reportCount + 1);
    MergeConservesExactly(gs, i, m, v.newCount, now, s);
    var once := Commit(gs, i, v, now, s);
    assert once[j] == gs[j] && once[m].reportCount == v.newCount && once[m].duplicateOf.None?;
    SecondWrite(once, j, m, now, s);
  }

  /** Writing the count the master already has drops the row's own weight. */
  lemma SecondWrite(gs: seq<Grievance>, j: nat, m: nat, now: Time, s: Settings)
    requires j < |gs| && m < |gs| && m != j && gs[m].duplicateOf.None?
    ensures Total(Commit(gs, j, DuplicateOf(m, gs[m].reportCount), now, s)) + Weight(gs[j]) == Total(gs)
  {
    TotalUpdate(gs, j, Linked(gs[j], m, now));
    var linked := gs[j := Linked(gs[j], m, now)];
    TotalUpdate(linked, m, linked[m].(reportCount := gs[m].reportCount));
  }

  // ----- the table and those at work on it -----

  /** What the dispatcher call came to, while its outcome is not yet recorded. */
  datatype Phase = Calling | Delivered | Failed

  /** One dispatch_grievance after its first commit: its row, and the attempts its session read from it. */
  datatype Flight = Flight(id: nat, phase: Phase, attemptsRead: nat)

  /** What has come of a row's dispatcher calls: each is recorded, lost with its dispatcher, or still in flight. */
  datatype Log = Log(failures: nat, recordedFailures: nat, lostFailures: nat,
                     deliveries: nat, recordedDeliveries: nat, lostDeliveries: nat)
  const NOTHING := Log(0, 0, 0, 0, 0, 0)

  /** A session that waits for a model: its row, and the status the row had when the session loaded it. */
  datatype Reading = Reading(id: nat, seen: Status)

  /** Dispatchers and waiting sessions go by numbers of their own; several may be at work on one row. */
  datatype World = World(settings: Settings, gs: seq<Grievance>, flights: map<nat, Flight>, logs: seq<Log>,
                         readings: map<nat, Reading>)

  /** The routing columns a session writes; None is a column it leaves as it loaded it, and so is not written. */
  datatype Columns = Columns(category: Option<string>, priority: Option<string>, disposition: Option<T.Disposition>,
                             needsReview: Option<bool>, dispatchEnabled: Option<bool>)
  const NO_COLUMNS := Columns(None, None, None, None, None)

  /**
   `Load` opens a session that will ask a model.  It ends as a re-extraction, as a pipeline run or photo
   check that asks for confirmation or reports a mismatch, or without writing anything.
   */
  datatype Event =
    | Create(g: Grievance)
    | Load(who: nat, id: nat)
    | WriteReextraction(who: nat, columns: Columns)
    | WriteChecked(who: nat, columns: Columns, mismatch: bool)
    | Drop(who: nat)
    | Review(id: nat, columns: Columns, review: Review)
    | Finalize(id: nat, now: Time)
    | Cancel(id: nat)
    | StartDispatch(who: nat, id: nat)
    | CallDispatcher(who: nat, ok: bool)
    | EndDispatch(who: nat)
    | Crash(who: nat)

  function Rewritten(g: Grievance, c: Columns): Grievance {
    g.(category := if c.category.Some? then c.category else g.category,
       priority := if c.priority.Some? then c.priority else g.priority,
       disposition := if c.disposition.Some? then c.disposition else g.disposition,
       dispatchEnabled := if c.dispatchEnabled.Some? then c.dispatchEnabled else g.dispatchEnabled,
       review := match c.needsReview
                 case None => g.review
                 case Some(needed) => Some(if needed then PendingOfficial else CitizenReview))
  }

  function WithStatus(g: Grievance, s: Status): Grievance {
    g.(status := s, timeline := g.timeline + [s])
  }

  function Next(mismatch: bool): Status {
    if mismatch then PhotoMismatch else AwaitingConfirmation
  }

  /** The status column is written only when it differs from the status loaded; the timeline gets its entry anyway. */
  function Checked(g: Grievance, c: Columns, seen: Status, next: Status): Grievance {
    Rewritten(g, c).(status := if next != seen then next else g.status, timeline := g.timeline + [next])
  }

  /** Disabled routes go back to an official; otherwise the status is committed before the call. */
  function Dispatching(g: Grievance): Grievance {
    if g.dispatchEnabled == Some(false)
    then WithStatus(g, Registered).(review := Some(PendingOfficial))
    else g.(status := Status.Dispatching)
  }

  /**
   A failure counts from the attempts its session read.  That session knows the row as dispatching, so
   unless the attempts are used up it leaves the status column alone.
   */
  function AfterFailure(g: Grievance, attemptsRead: nat): Grievance {
    var g' := g.(attempts := attemptsRead + 1);
    if attemptsRead + 1 >= MAX_DISPATCH_ATTEMPTS then WithStatus(g', DispatchFailed) else g'
  }

  function LoadStep(w: World, who: nat, id: nat): World {
    if id >= |w.gs| || who in w.readings then w
    else w.(readings := w.readings[who := Reading(id, w.gs[id].status)])
  }

  predicate Reads(w: World, who: nat) {
    who in w.readings && w.readings[who].id < |w.gs|
  }

  /** The routing columns, and an entry in the timeline with the status that was loaded. */
  function ReextractionStep(w: World, who: nat, columns: Columns): World {
    if !Reads(w, who) then w
    else
      var r := w.readings[who];
      var g := Rewritten(w.gs[r.id], columns);
      w.(readings := w.readings - {who}, gs := w.gs[r.id := g.(timeline := g.timeline + [r.seen])])
  }

  function CheckedStep(w: World, who: nat, columns: Columns, mismatch: bool): World {
    if !Reads(w, who) then w
    else
      var r := w.readings[who];
      w.(readings := w.readings - {who}, gs := w.gs[r.id := Checked(w.gs[r.id], columns, r.seen, Next(mismatch))])
  }

  function StartStep(w: World, who: nat, id: nat): World {
    if id >= |w.gs| || who in w.flights then w
    else
      var g := w.gs[id];
      var w' := w.(gs := w.gs[id := Dispatching(g)]);
      if g.dispatchEnabled == Some(false) then w'
      else w'.(flights := w.flights[who := Flight(id, Calling, g.attempts)])
  }

  /** The dispatcher has a call to make, or an answer to record. */
  predicate Flies(w: World, who: nat) {
    who in w.flights && w.flights[who].id < |w.gs| && w.flights[who].id < |w.logs|
  }

  function CallStep(w: World, who: nat, ok: bool): World {
    if !Flies(w, who) || !w.flights[who].phase.Calling? then w
    else
      var f := w.flights[who];
      w.(flights := w.flights[who := f.(phase := if ok then Delivered else Failed)],
         logs := w.logs[f.id := AfterCall(w.logs[f.id], ok)])
  }

  function AfterCall(l: Log, ok: bool): Log {
    if ok then l.(deliveries := l.deliveries + 1) else l.(failures := l.failures + 1)
  }

  function EndStep(w: World, who: nat): World {
    if !Flies(w, who) || w.flights[who].phase.Calling? then w
    else
      var f := w.flights[who];
      w.(flights := w.flights - {who},
         gs := w.gs[f.id := Answered(w.gs[f.id], f)],
         logs := w.logs[f.id := AfterRecord(w.logs[f.id], f.phase)])
  }

  function Answered(g: Grievance, f: Flight): Grievance {
    if f.phase == Failed then AfterFailure(g, f.attemptsRead) else WithStatus(g, Submitted)
  }

  function AfterRecord(l: Log, phase: Phase): Log {
    if phase == Failed then l.(recordedFailures := l.recordedFailures + 1)
    else l.(recordedDeliveries := l.recordedDeliveries + 1)
  }

  function CrashStep(w: World, who: nat): World {
    if !Flies(w, who) then w
    else
      var f := w.flights[who];
      w.(flights := w.flights - {who}, logs := w.logs[f.id := AfterCrash(w.logs[f.id], f.phase)])
  }

  function AfterCrash(l: Log, phase: Phase): Log {
    match phase
    case Calling => l
    case Delivered => l.(lostDeliveries := l.lostDeliveries + 1)
    case Failed => l.(lostFailures := l.lostFailures + 1)
  }

  function Created(g: Grievance): Grievance {
    g.(reportCount := 1, duplicateOf := None, windowEnds := None, confirmedAt := None, attempts := 0, timeline := [],
       status := if g.status == Processing then Processing else Draft)
  }

  function Step(w: World, e: Event): World {
    match e
    case Create(g) => w.(gs := w.gs + [Created(g)], logs := w.logs + [NOTHING])
    case Load(who, id) => LoadStep(w, who, id)
    case WriteReextraction(who, columns) => ReextractionStep(w, who, columns)
    case WriteChecked(who, columns, mismatch) => CheckedStep(w, who, columns, mismatch)
    case Drop(who) => w.(readings := w.readings - {who})
    case Review(id, columns, review) =>
      if id >= |w.gs| then w
      else w.(gs := w.gs[id := Rewritten(w.gs[id], columns).(review := Some(review))])
    case Finalize(id, now) => if id >= |w.gs| then w else w.(gs := Finalized(w.gs, id, now, w.settings))
    case Cancel(id) => if id >= |w.gs| then w else w.(gs := w.gs[id := WithStatus(w.gs[id], Cancelled)])
    case StartDispatch(who, id) => StartStep(w, who, id)
    case CallDispatcher(who, ok) => CallStep(w, who, ok)
    case EndDispatch(who) => EndStep(w, who)
    case Crash(who) => CrashStep(w, who)
  }

  /** The sweep for windows that have closed, and the sweep for interrupted dispatches. */
  predicate ExpiredWindow(g: Grievance, now: Time) {
    g.status == PendingWindow && g.windowEnds.Some? && g.windowEnds.value <= now
  }

  predicate StuckDispatching(g: Grievance) {
    g.status == Status.Dispatching && g.attempts < MAX_DISPATCH_ATTEMPTS
  }

  /** Who may be dispatched: what the sweeps pick up, and what finalize hands on. */
  predicate Dispatchable(g: Grievance) {
    g.status in {Registered, PendingWindow} || StuckDispatching(g)
  }

  /**
   The discipline the callers are meant to keep, none of which the functions check themselves:
   confirmation from the two confirmable statuses only, pipeline writes and cancellation before
   confirmation only, dispatch only of what a sweep or finalize handed over and is still so.
   */
  predicate InTurn(w: World, e: Event) {
    match e
    case Finalize(id, _) => id < |w.gs| ==> w.gs[id].status in {AwaitingConfirmation, PhotoMismatch}
    case WriteChecked(who, _, _) => Reads(w, who) ==> PreFinal(w.gs[w.readings[who].id].status)
    case Cancel(id) => id < |w.gs| ==> PreFinal(w.gs[id].status)
    case StartDispatch(_, id) => id < |w.gs| ==> Dispatchable(w.gs[id])
    case _ => true
  }

  /** No dispatch of the row is under way when another one starts; the sweep for interrupted dispatches cannot tell. */
  predicate Alone(w: World, e: Event) {
    e.StartDispatch? ==> forall who :: who in w.flights ==> w.flights[who].id != e.id
  }

  predicate InTurnAndAlone(w: World, e: Event) { InTurn(w, e) && Alone(w, e) }

  ghost predicate Initial(w: World) {
    w.gs == [] && w.flights == map[] && w.logs == [] && w.readings == map[]
  }

  // ----- what every disciplined run keeps -----

  /** One complaint, at any time. */
  predicate RowOk(g: Grievance) {
    && (PreFinal(g.status) || g.status == PendingWindow ==> g.duplicateOf.None?)
    && (PreFinal(g.status) ==> g.reportCount == 1)
    && (g.status == PendingWindow ==> g.windowEnds.Some?)
    && (g.status == Status.Duplicate <==> g.duplicateOf.Some?)
  }

  /** Where a complaint can be while a dispatcher is at work on it. */
  predicate Launched(s: Status) {
    s in {Registered, Status.Dispatching, Submitted, DispatchFailed}
  }

  ghost predicate Inv(w: World) {
    && |w.logs| == |w.gs|
    && (forall who :: who in w.flights ==> w.flights[who].id < |w.gs| && Launched(w.gs[w.flights[who].id].status))
    && (forall id :: 0 <= id < |w.gs| ==> RowOk(w.gs[id]))
    && Clustered(w.gs)
  }

  lemma ClustersUntouched(gs: seq<Grievance>, i: nat, g: Grievance)
    requires Clustered(gs) && i < |gs|
    requires g.reportCount == gs[i].reportCount && g.duplicateOf == gs[i].duplicateOf
    ensures Clustered(gs[i := g])
  {
    TotalUpdate(gs, i, g);
    forall k | 0 <= k < |gs| ensures LinksTo(gs[i := g], k) == LinksTo(gs, k) { LinksUpdate(gs, i, g, k); }
  }

  lemma ClustersWithNewcomer(gs: seq<Grievance>, g: Grievance)
    requires Clustered(gs) && g.duplicateOf.None? && g.reportCount == 1
    ensures Clustered(gs + [g])
  {
    var gs' := gs + [g];
    assert gs'[..|gs|] == gs;
    NoLinks(gs', |gs|);
  }

  /** A solitary master joins the cluster of another. */
  lemma ClustersAfterMerge(gs: seq<Grievance>, id: nat, m: nat, now: Time, s: Settings)
    requires Clustered(gs) && id < |gs| && m < |gs| && id != m
    requires gs[id].duplicateOf.None? && gs[id].reportCount == 1 && gs[m].duplicateOf.None?
    ensures Clustered(Commit(gs, id, DuplicateOf(m, gs[m].reportCount + 1), now, s))
  {
    var linked := gs[id := Linked(gs[id], m, now)];
    var gs' := linked[m := linked[m].(reportCount := gs[m].reportCount + 1)];
    MergeConservesExactly(gs, id, m, gs[m].reportCount + 1, now, s);
    forall k | 0 <= k < |gs| ensures LinksTo(gs', k) == LinksTo(gs, k) + if k == m then 1 else 0 {
      LinksUpdate(gs, id, Linked(gs[id], m, now), k);
      LinksUpdate(linked, m, linked[m].(reportCount := gs[m].reportCount + 1), k);
    }
    forall i | 0 <= i < |gs'| && gs'[i].duplicateOf.Some?
      ensures gs'[i].duplicateOf.value < |gs'| && gs'[gs'[i].duplicateOf.value].duplicateOf.None? && gs'[i].reportCount == 1
    {
      if i != id {
        NotLinkedTo(gs, i, id);
      }
    }
  }

  /** Nothing links to a master that counts only itself. */
  lemma {:induction false} NotLinkedTo(gs: seq<Grievance>, i: nat, m: nat)
    requires i < |gs| && LinksTo(gs, m) == 0
    ensures gs[i].duplicateOf != Some(m)
    decreases |gs|
  {
    if i < |gs| - 1 { NotLinkedTo(gs[..|gs| - 1], i, m); }
  }

  // ----- the steps -----

  /** One row changes, and stays in its cluster. */
  lemma RowChanged(w: World, w': World, id: nat)
    requires Inv(w) && id < |w.gs| && |w'.logs| == |w'.gs| == |w.gs| && w'.gs == w.gs[id := w'.gs[id]]
    requires w'.gs[id].reportCount == w.gs[id].reportCount && w'.gs[id].duplicateOf == w.gs[id].duplicateOf
    requires RowOk(w'.gs[id]) && (Launched(w.gs[id].status) ==> Launched(w'.gs[id].status))
    requires forall who :: who in w'.flights ==>
      || (who in w.flights && w'.flights[who].id == w.flights[who].id)
      || (w'.flights[who].id == id && Launched(w'.gs[id].status))
    ensures Inv(w')
  {
    ClustersUntouched(w.gs, id, w'.gs[id]);
  }

  /** What find_duplicate hands to finalize is another row's open window. */
  lemma VerdictIsSound(gs: seq<Grievance>, id: nat, now: Time, s: Settings)
    requires id < |gs|
    ensures var v := Decide(gs, id, now, s);
            v.DuplicateOf? ==> v.master < |gs| && v.master != id && gs[v.master].status == PendingWindow
                               && v.newCount == gs[v.master].reportCount + 1
  {
    var g := gs[id];
    if Decide(gs, id, now, s).DuplicateOf? {
      var category := if g.category.Some? && g.category.value != "" then g.category.value else "other";
      MatchIsCandidate(gs, s.geo, g.place.value, s.radius,
                       Candidates(gs, s.geo, category, g.place.value, id, now));
    }
  }

  lemma {:induction false} MatchIsCandidate(gs: seq<Grievance>, geo: Geo, here: Point, radius: real, ids: seq<nat>)
    requires forall k :: 0 <= k < |ids| ==> ids[k] < |gs| && gs[ids[k]].place.Some?
    ensures var m := Nearest(gs, geo, here, radius, ids); m.Some? ==> m.value.master in ids
  {
    NearestIsNearest(gs, geo, here, radius, ids);
  }

  lemma MergeKeepsInv(w: World, id: nat, m: nat, now: Time)
    requires Inv(w) && id < |w.gs| && m < |w.gs| && id != m
    requires w.gs[id].status in {AwaitingConfirmation, PhotoMismatch} && w.gs[m].status == PendingWindow
    ensures Inv(w.(gs := Commit(w.gs, id, DuplicateOf(m, w.gs[m].reportCount + 1), now, w.settings)))
  {
    assert RowOk(w.gs[id]) && RowOk(w.gs[m]);
    ClustersAfterMerge(w.gs, id, m, now, w.settings);
    var gs' := Commit(w.gs, id, DuplicateOf(m, w.gs[m].reportCount + 1), now, w.settings);
    assert RowOk(gs'[m]) && RowOk(gs'[id]);
    assert forall k :: 0 <= k < |w.gs| && k != id && k != m ==> gs'[k] == w.gs[k];
  }

  lemma ConfirmKeepsInv(w: World, id: nat, v: Verdict, now: Time)
    requires Inv(w) && id < |w.gs| && !v.DuplicateOf?
    requires w.gs[id].status in {AwaitingConfirmation, PhotoMismatch}
    ensures Inv(w.(gs := Commit(w.gs, id, v, now, w.settings)))
  {
    assert RowOk(w.gs[id]);
    RowChanged(w, w.(gs := Commit(w.gs, id, v, now, w.settings)), id);
  }

  lemma FinalizeKeepsInv(w: World, id: nat, now: Time)
    requires Inv(w) && InTurn(w, Finalize(id, now)) && id < |w.gs|
    ensures Inv(Step(w, Finalize(id, now)))
  {
    var v := Decide(w.gs, id, now, w.settings);
    VerdictIsSound(w.gs, id, now, w.settings);
    assert Step(w, Finalize(id, now)) == w.(gs := Commit(w.gs, id, v, now, w.settings));
    if v.DuplicateOf? {
      MergeKeepsInv(w, id, v.master, now);
    } else {
      ConfirmKeepsInv(w, id, v, now);
    }
  }

  /** The row a step other than Create and Finalize can change. */
  function Touched(w: World, e: Event): Option<nat> {
    match e
    case WriteReextraction(who, _) => if Reads(w, who) then Some(w.readings[who].id) else None
    case WriteChecked(who, _, _) => if Reads(w, who) then Some(w.readings[who].id) else None
    case Review(id, _, _) => if id < |w.gs| then Some(id) else None
    case Cancel(id) => if id < |w.gs| then Some(id) else None
    case StartDispatch(who, id) => if id < |w.gs| && who !in w.flights then Some(id) else None
    case EndDispatch(who) => if Flies(w, who) && !w.flights[who].phase.Calling? then Some(w.flights[who].id) else None
    case _ => None
  }

  lemma TouchesOneRow(w: World, e: Event)
    requires !e.Create? && !e.Finalize?
    ensures var t, w' := Touched(w, e), Step(w, e);
            && |w'.gs| == |w.gs| && |w'.logs| == |w.logs| && w'.settings == w.settings
            && (t.None? ==> w'.gs == w.gs)
            && (t.Some? ==> t.value < |w.gs| && w'.gs == w.gs[t.value := w'.gs[t.value]])
  {
  }

  /** What a step in turn makes of the row it touches. */
  lemma TouchedRowOk(w: World, e: Event)
    requires InTurn(w, e) && !e.Create? && !e.Finalize? && Touched(w, e).Some?
    requires RowOk(w.gs[Touched(w, e).value])
    requires e.EndDispatch? ==> Launched(w.gs[Touched(w, e).value].status)
    ensures Touched(w, e).value < |Step(w, e).gs|
    ensures var g, g' := w.gs[Touched(w, e).value], Step(w, e).gs[Touched(w, e).value];
            && RowOk(g') && g'.reportCount == g.reportCount && g'.duplicateOf == g.duplicateOf
            && (Launched(g.status) ==> Launched(g'.status))
  {
  }

  /** A step brings at most one dispatcher to work, on a row that it launches. */
  lemma FlightsAfter(w: World, e: Event, who: nat)
    requires who in Step(w, e).flights
    ensures var f := Step(w, e).flights[who];
            || (who in w.flights && f.id == w.flights[who].id)
            || (Touched(w, e) == Some(f.id) && f.id < |Step(w, e).gs| && Launched(Step(w, e).gs[f.id].status))
  {
  }

  lemma TouchedKeepsInv(w: World, e: Event)
    requires Inv(w) && InTurn(w, e) && !e.Create? && !e.Finalize?
    ensures Inv(Step(w, e))
  {
    TouchesOneRow(w, e);
    forall who | who in Step(w, e).flights
      ensures var f := Step(w, e).flights[who];
        || (who in w.flights && f.id == w.flights[who].id)
        || (Touched(w, e) == Some(f.id) && f.id < |w.gs| && Launched(Step(w, e).gs[f.id].status))
    {
      FlightsAfter(w, e, who);
    }
    var t := Touched(w, e);
    if t.Some? {
      assert RowOk(w.gs[t.value]);
      TouchedRowOk(w, e);
      RowChanged(w, Step(w, e), t.value);
    }
  }

  lemma StepKeepsInv(w: World, e: Event)
    requires Inv(w) && InTurn(w, e)
    ensures Inv(Step(w, e))
  {
    match e
    case Create(g) => ClustersWithNewcomer(w.gs, Created(g));
    case Finalize(id, now) => if id < |w.gs| { FinalizeKeepsInv(w, id, now); }
    case _ => TouchedKeepsInv(w, e);
  }

  lemma RunKeepsInv(w: World, es: seq<Event>)
    requires Inv(w) && Allowed(Step, InTurn, w, es)
    ensures Inv(Run(Step, w, es))
  {
    forall t, e | Inv(t) && InTurn(t, e) ensures Inv(Step(t, e)) { StepKeepsInv(t, e); }
    Invariance(Step, InTurn, Inv, w, es);
  }

  /**
   Conservation: the masters' counts add up to the number of complaints, each master counts itself and
   its duplicates, and a duplicate's master is never itself a duplicate.
   */
  lemma ReportsAreConserved(w: World, es: seq<Event>)
    requires Initial(w) && Allowed(Step, InTurn, w, es)
    ensures Clustered(Run(Step, w, es).gs)
  {
    RunKeepsInv(w, es);
  }

  /** Once its window is open, a complaint is at every instant exactly one of: open to duplicates, due for dispatch. */
  lemma WindowIsOpenOrDue(w: World, es: seq<Event>, id: nat, now: Time)
    requires Initial(w) && Allowed(Step, InTurn, w, es)
    ensures var w' := Run(Step, w, es);
            id < |w'.gs| && w'.gs[id].status == PendingWindow ==>
              (WindowOpen(w'.gs[id], now) <==> !ExpiredWindow(w'.gs[id], now))
  {
    RunKeepsInv(w, es);
    var w' := Run(Step, w, es);
    if id < |w'.gs| { assert RowOk(w'.gs[id]); }
  }

}
