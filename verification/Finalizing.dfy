/** What finalize does to the rows, told from the rows alone. */
module Finalizing {
  import opened Wrappers
  import opened Clock
  import opened Grievances
  import opened Lifecycle
  import opened Dedup
  import T = Taxonomy

  /** Somebody at the municipality has to look at the complaint first. */
  ghost predicate NeedsOfficial(g: Grievance) {
    || g.review == Some(PendingOfficial)
    || (g.disposition.Some? && g.disposition.value in {T.Redirect, T.EmergencyRedirect, T.NeedsHumanReview})
  }

  ghost predicate Urgent(g: Grievance) { !NeedsOfficial(g) && g.priority == Some("priority") }

  /** Neither an official's nor urgent: the complaint may join an earlier report. */
  ghost predicate MayJoin(g: Grievance) { !NeedsOfficial(g) && g.priority != Some("priority") }

  /** A complaint without a category is compared with those filed under "other". */
  ghost function ComparedAs(g: Grievance): string {
    match g.category case None => "other" case Some(c) => if |c| == 0 then "other" else c
  }

  /** `m` is the report that the complaint `id` joins. */
  ghost predicate Joins(gs: seq<Grievance>, id: nat, m: nat, now: Time, s: Settings)
    requires id < |gs|
  {
    && MayJoin(gs[id]) && gs[id].place.Some?
    && IsMaster(gs, s.geo, ComparedAs(gs[id]), gs[id].place.value, s.radius, id, now, m)
  }

  /** It has none to join, and opens a window of its own. */
  ghost predicate JoinsNone(gs: seq<Grievance>, id: nat, now: Time, s: Settings)
    requires id < |gs|
  {
    && MayJoin(gs[id])
    && (gs[id].place.None? || NothingToJoin(gs, s.geo, ComparedAs(gs[id]), gs[id].place.value, s.radius, id, now))
  }

  /** The decision, exactly. */
  lemma VerdictExactly(gs: seq<Grievance>, id: nat, now: Time, s: Settings)
    requires id < |gs|
    ensures var g, v := gs[id], Decide(gs, id, now, s);
      && (v.AwaitOfficial? || v.HoldForOfficial? <==> NeedsOfficial(g))
      && (v.DispatchNow? <==> Urgent(g))
      && (v.OpenWindow? <==> JoinsNone(gs, id, now, s))
      && (forall m: nat :: v.DuplicateOf? && v.master == m <==> Joins(gs, id, m, now, s))
      && (v.DuplicateOf? ==> v.master < |gs| && v.newCount == gs[v.master].reportCount + 1)
  {
    var g := gs[id];
    DuplicateIsTheNearestOpenReport(gs, s.geo, ComparedAs(g), g.place, s.radius, id, now);
    var found := Dedup.Duplicate(gs, s.geo, ComparedAs(g), g.place, s.radius, id, now);
    DuplicateIsMaster(gs, s.geo, ComparedAs(g), g.place, s.radius, id, now, found);
  }

  /** The complaint itself: confirmed in any case, and with what belongs to where it goes. */
  ghost predicate ConfirmedAs(g: Grievance, g': Grievance, status: Status, now: Time, review: Option<Review>,
                              duplicateOf: Option<nat>, windowEnds: Option<Time>)
  {
    && g' == g.(status := status, confirmedAt := Some(now), review := review, duplicateOf := duplicateOf,
                windowEnds := windowEnds, timeline := g'.timeline)
    && g'.timeline == g.timeline + [Registered] + (if status == Registered then [] else [status])
  }

  ghost predicate OthersKept(gs: seq<Grievance>, gs': seq<Grievance>, changed: set<nat>) {
    |gs'| == |gs| && forall i :: 0 <= i < |gs| && i !in changed ==> gs'[i] == gs[i]
  }

  lemma RowsAfterCommit(gs: seq<Grievance>, id: nat, v: Verdict, now: Time, s: Settings)
    requires id < |gs| && !v.DuplicateOf?
    ensures var g, gs' := gs[id], Commit(gs, id, v, now, s);
      && OthersKept(gs, gs', {id})
      && (v.AwaitOfficial? || v.DispatchNow? ==>
            ConfirmedAs(g, gs'[id], Registered, now, g.review, g.duplicateOf, g.windowEnds))
      && (v.HoldForOfficial? ==>
            ConfirmedAs(g, gs'[id], Registered, now, Some(PendingOfficial), g.duplicateOf, g.windowEnds))
      && (v.OpenWindow? ==>
            ConfirmedAs(g, gs'[id], PendingWindow, now, g.review, g.duplicateOf, Some(now + s.window)))
  {
  }

  lemma RowsAfterMerge(gs: seq<Grievance>, id: nat, m: nat, newCount: nat, now: Time, s: Settings)
    requires id < |gs| && m < |gs| && m != id
    ensures var g, gs' := gs[id], Commit(gs, id, DuplicateOf(m, newCount), now, s);
      && OthersKept(gs, gs', {id, m}) && gs'[m] == gs[m].(reportCount := newCount)
      && ConfirmedAs(g, gs'[id], Status.Duplicate, now, g.review, Some(m), g.windowEnds)
  {
  }

  /**
   Every row after finalize.  The complaint waits for an official, is registered for its dispatch, joins the
   report found for it, which then counts one more, or waits out a window of its own.  No other row changes.
   */
  lemma RowsAfterFinalize(gs: seq<Grievance>, id: nat, now: Time, s: Settings)
    requires id < |gs|
    ensures var g, gs' := gs[id], Finalized(gs, id, now, s);
      && |gs'| == |gs|
      && ((forall m: nat :: !Joins(gs, id, m, now, s)) ==> OthersKept(gs, gs', {id}))
      && (NeedsOfficial(g) ==>
            ConfirmedAs(g, gs'[id], Registered, now, Some(PendingOfficial), g.duplicateOf, g.windowEnds))
      && (Urgent(g) ==> ConfirmedAs(g, gs'[id], Registered, now, g.review, g.duplicateOf, g.windowEnds))
      && (JoinsNone(gs, id, now, s) ==>
            ConfirmedAs(g, gs'[id], PendingWindow, now, g.review, g.duplicateOf, Some(now + s.window)))
      && (forall m: nat :: Joins(gs, id, m, now, s) ==>
            && m < |gs| && OthersKept(gs, gs', {id, m}) && gs'[m] == gs[m].(reportCount := gs[m].reportCount + 1)
            && ConfirmedAs(g, gs'[id], Status.Duplicate, now, g.review, Some(m), g.windowEnds))
  {
    VerdictExactly(gs, id, now, s);
    var v := Decide(gs, id, now, s);
    if v.DuplicateOf? {
      assert Joins(gs, id, v.master, now, s);
      RowsAfterMerge(gs, id, v.master, v.newCount, now, s);
    } else {
      RowsAfterCommit(gs, id, v, now, s);
    }
  }
}
