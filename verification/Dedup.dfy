/** The search for an earlier report of the same thing nearby.  Distance and bounding box are abstract. */
module Dedup {
  import opened Wrappers
  import opened Clock
  import opened Grievances

  predicate WindowOpen(g: Grievance, now: Time) {
    g.status == PendingWindow && g.windowEnds.Some? && g.windowEnds.value > now
  }

  predicate IsCandidate(g: Grievance, geo: Geo, category: string, here: Point, now: Time) {
    && g.category == Some(category) && WindowOpen(g, now)
    && g.place.Some? && geo.box(here, g.place.value)
  }

  /** The prefilter query, in table order. */
  function Candidates(gs: seq<Grievance>, geo: Geo, category: string, here: Point, exclude: nat, now: Time): (ids: seq<nat>)
    ensures forall k :: 0 <= k < |ids| ==>
              ids[k] < |gs| && ids[k] != exclude && IsCandidate(gs[ids[k]], geo, category, here, now)
    ensures forall i :: 0 <= i < |gs| && i != exclude && IsCandidate(gs[i], geo, category, here, now) ==> i in ids
  {
    if gs == [] then []
    else
      var n := |gs| - 1;
      var before := Candidates(gs[..n], geo, category, here, exclude, now);
      if n != exclude && IsCandidate(gs[n], geo, category, here, now) then before + [n] else before
  }

  datatype Match = Match(master: nat, distance: real)

  /** `best` is the nearest of `ids` within the radius, the first such in order; None when there is none. */
  ghost predicate IsNearest(best: Option<Match>, gs: seq<Grievance>, geo: Geo, here: Point, radius: real, ids: seq<nat>)
    requires forall k :: 0 <= k < |ids| ==> ids[k] < |gs| && gs[ids[k]].place.Some?
  {
    match best
    case None => forall k :: 0 <= k < |ids| ==> geo.dist(here, gs[ids[k]].place.value) > radius
    case Some(m) =>
      m.distance <= radius &&
      exists k :: 0 <= k < |ids| && ids[k] == m.master
        && geo.dist(here, gs[ids[k]].place.value) == m.distance
        && (forall j :: 0 <= j < |ids| ==> m.distance <= geo.dist(here, gs[ids[j]].place.value))
        && (forall j :: 0 <= j < k ==> m.distance < geo.dist(here, gs[ids[j]].place.value))
  }

  /** The choice as a function, for the places where the lifecycle needs one. */
  function Nearest(gs: seq<Grievance>, geo: Geo, here: Point, radius: real, ids: seq<nat>): Option<Match>
    requires forall k :: 0 <= k < |ids| ==> ids[k] < |gs| && gs[ids[k]].place.Some?
  {
    if ids == [] then None
    else
      var n := |ids| - 1;
      var best := Nearest(gs, geo, here, radius, ids[..n]);
      var d := geo.dist(here, gs[ids[n]].place.value);
      if d <= radius && (best.None? || d < best.value.distance) then Some(Match(ids[n], d)) else best
  }

  lemma {:induction false} NearestIsNearest(gs: seq<Grievance>, geo: Geo, here: Point, radius: real, ids: seq<nat>)
    requires forall k :: 0 <= k < |ids| ==> ids[k] < |gs| && gs[ids[k]].place.Some?
    ensures IsNearest(Nearest(gs, geo, here, radius, ids), gs, geo, here, radius, ids)
  {
    if ids != [] {
      var n := |ids| - 1;
      NearestIsNearest(gs, geo, here, radius, ids[..n]);
      var before, best := Nearest(gs, geo, here, radius, ids[..n]), Nearest(gs, geo, here, radius, ids);
      if best.Some? {
        if best == before {
          var k :| 0 <= k < n && ids[..n][k] == best.value.master
            && geo.dist(here, gs[ids[..n][k]].place.value) == best.value.distance
            && (forall j :: 0 <= j < n ==> best.value.distance <= geo.dist(here, gs[ids[..n][j]].place.value))
            && (forall j :: 0 <= j < k ==> best.value.distance < geo.dist(here, gs[ids[..n][j]].place.value));
          assert ids[k] == best.value.master;
          assert forall j :: 0 <= j < n ==> ids[..n][j] == ids[j];
        } else {
          assert ids[n] == best.value.master;
          assert forall j :: 0 <= j < n ==> ids[..n][j] == ids[j];
        }
      } else {
        assert forall j :: 0 <= j < n ==> ids[..n][j] == ids[j];
      }
    }
  }

  /** No location, no duplicate. */
  function Duplicate(gs: seq<Grievance>, geo: Geo, category: string, place: Option<Point>, radius: real,
                     exclude: nat, now: Time): Option<Match>
  {
    if place.None? then None
    else Nearest(gs, geo, place.value, radius, Candidates(gs, geo, category, place.value, exclude, now))
  }

  // ----- the promise, on the rows alone -----

  /** The row is an earlier report of the same thing nearby that new reports may still join. */
  ghost predicate Joinable(g: Grievance, geo: Geo, category: string, here: Point, radius: real, now: Time) {
    && g.category == Some(category)
    && g.status == PendingWindow && g.windowEnds.Some? && now < g.windowEnds.value
    && g.place.Some? && geo.box(here, g.place.value) && geo.dist(here, g.place.value) <= radius
  }

  /** `m` is joinable, no joinable row is nearer, and of those as near it comes first in the table. */
  ghost predicate IsMaster(gs: seq<Grievance>, geo: Geo, category: string, here: Point, radius: real,
                           exclude: nat, now: Time, m: nat)
  {
    && m < |gs| && m != exclude && Joinable(gs[m], geo, category, here, radius, now)
    && forall i :: 0 <= i < |gs| && i != exclude && Joinable(gs[i], geo, category, here, radius, now) ==>
         var near, other := geo.dist(here, gs[m].place.value), geo.dist(here, gs[i].place.value);
         near < other || (near == other && m <= i)
  }

  ghost predicate NothingToJoin(gs: seq<Grievance>, geo: Geo, category: string, here: Point, radius: real,
                                exclude: nat, now: Time)
  {
    forall i :: 0 <= i < |gs| && i != exclude ==> !Joinable(gs[i], geo, category, here, radius, now)
  }

  /** `ids` lists, in table order, what the query lets through: all that is joinable, and nothing joinable by radius alone. */
  ghost predicate Lists(ids: seq<nat>, gs: seq<Grievance>, geo: Geo, category: string, here: Point, radius: real,
                        exclude: nat, now: Time)
  {
    && (forall k :: 0 <= k < |ids| ==> ids[k] < |gs| && ids[k] != exclude && gs[ids[k]].place.Some?)
    && (forall k :: 0 <= k < |ids| && geo.dist(here, gs[ids[k]].place.value) <= radius ==>
          Joinable(gs[ids[k]], geo, category, here, radius, now))
    && (forall i :: 0 <= i < |gs| && i != exclude && Joinable(gs[i], geo, category, here, radius, now) ==> i in ids)
    && (forall j, k :: 0 <= j < k < |ids| ==> ids[j] < ids[k])
  }

  predicate Ascends(ids: seq<nat>, below: nat) {
    && (forall k :: 0 <= k < |ids| ==> ids[k] < below)
    && (forall j, k :: 0 <= j < k < |ids| ==> ids[j] < ids[k])
  }

  lemma {:induction false} CandidatesAscend(gs: seq<Grievance>, geo: Geo, category: string, here: Point, exclude: nat, now: Time)
    ensures Ascends(Candidates(gs, geo, category, here, exclude, now), |gs|)
  {
    if gs != [] {
      CandidatesAscend(gs[..|gs| - 1], geo, category, here, exclude, now);
    }
  }

  lemma CandidatesAreListed(gs: seq<Grievance>, geo: Geo, category: string, here: Point, radius: real,
                            exclude: nat, now: Time)
    ensures Lists(Candidates(gs, geo, category, here, exclude, now), gs, geo, category, here, radius, exclude, now)
  {
    CandidatesAscend(gs, geo, category, here, exclude, now);
    var ids := Candidates(gs, geo, category, here, exclude, now);
    forall k | 0 <= k < |ids| ensures IsCandidate(gs[ids[k]], geo, category, here, now) {}
    forall i | 0 <= i < |gs| && i != exclude && Joinable(gs[i], geo, category, here, radius, now) ensures i in ids {
      assert IsCandidate(gs[i], geo, category, here, now);
    }
  }

  lemma FoundIsMaster(ids: seq<nat>, gs: seq<Grievance>, geo: Geo, category: string, here: Point, radius: real,
                      exclude: nat, now: Time, best: Option<Match>)
    requires Lists(ids, gs, geo, category, here, radius, exclude, now)
    requires IsNearest(best, gs, geo, here, radius, ids)
    ensures best.Some? ==>
      && IsMaster(gs, geo, category, here, radius, exclude, now, best.value.master)
      && best.value.distance == geo.dist(here, gs[best.value.master].place.value)
    ensures best.None? ==> NothingToJoin(gs, geo, category, here, radius, exclude, now)
  {
    if best.Some? {
      var m, d := best.value.master, best.value.distance;
      var k :| 0 <= k < |ids| && ids[k] == m && geo.dist(here, gs[ids[k]].place.value) == d
        && (forall j :: 0 <= j < |ids| ==> d <= geo.dist(here, gs[ids[j]].place.value))
        && (forall j :: 0 <= j < k ==> d < geo.dist(here, gs[ids[j]].place.value));
      forall i | 0 <= i < |gs| && i != exclude && Joinable(gs[i], geo, category, here, radius, now)
        ensures d < geo.dist(here, gs[i].place.value) || (d == geo.dist(here, gs[i].place.value) && m <= i)
      {
        NoneIsNearer(ids, gs, geo, here, d, k, i);
      }
    }
  }

  lemma NoneIsNearer(ids: seq<nat>, gs: seq<Grievance>, geo: Geo, here: Point, d: real, k: nat, i: nat)
    requires forall j :: 0 <= j < |ids| ==> ids[j] < |gs| && gs[ids[j]].place.Some?
    requires forall j, l :: 0 <= j < l < |ids| ==> ids[j] < ids[l]
    requires forall j :: 0 <= j < |ids| ==> d <= geo.dist(here, gs[ids[j]].place.value)
    requires forall j :: 0 <= j < k < |ids| ==> d < geo.dist(here, gs[ids[j]].place.value)
    requires k < |ids| && i in ids
    ensures d < geo.dist(here, gs[i].place.value) || (d == geo.dist(here, gs[i].place.value) && ids[k] <= i)
  {
    var j :| 0 <= j < |ids| && ids[j] == i;
  }

  lemma DuplicateIsMaster(gs: seq<Grievance>, geo: Geo, category: string, place: Option<Point>, radius: real,
                          exclude: nat, now: Time, found: Option<Match>)
    requires found == Duplicate(gs, geo, category, place, radius, exclude, now)
    ensures found.Some? ==>
      && place.Some? && IsMaster(gs, geo, category, place.value, radius, exclude, now, found.value.master)
      && found.value.distance == geo.dist(place.value, gs[found.value.master].place.value)
    ensures found.None? ==> place.None? || NothingToJoin(gs, geo, category, place.value, radius, exclude, now)
  {
    if place.Some? {
      var ids := Candidates(gs, geo, category, place.value, exclude, now);
      CandidatesAreListed(gs, geo, category, place.value, radius, exclude, now);
      NearestIsNearest(gs, geo, place.value, radius, ids);
      FoundIsMaster(ids, gs, geo, category, place.value, radius, exclude, now, found);
    }
  }

  lemma OneMaster(gs: seq<Grievance>, geo: Geo, category: string, here: Point, radius: real, exclude: nat, now: Time,
                  m: nat, n: nat)
    requires IsMaster(gs, geo, category, here, radius, exclude, now, m)
    requires IsMaster(gs, geo, category, here, radius, exclude, now, n)
    ensures m == n
  {
  }

  /**
   The search finds `m` exactly when `m` is the nearest other row of the same category with an open window
   inside the box and the radius, and finds nothing exactly when there is no such row.
   */
  lemma DuplicateIsTheNearestOpenReport(gs: seq<Grievance>, geo: Geo, category: string, place: Option<Point>,
                                        radius: real, exclude: nat, now: Time)
    ensures var found := Duplicate(gs, geo, category, place, radius, exclude, now);
      && (found.None? <==> place.None? || NothingToJoin(gs, geo, category, place.value, radius, exclude, now))
      && (forall m: nat :: found.Some? && found.value.master == m <==>
            place.Some? && IsMaster(gs, geo, category, place.value, radius, exclude, now, m))
  {
    var found := Duplicate(gs, geo, category, place, radius, exclude, now);
    DuplicateIsMaster(gs, geo, category, place, radius, exclude, now, found);
    forall m: nat | place.Some? && IsMaster(gs, geo, category, place.value, radius, exclude, now, m)
      ensures found.Some? && found.value.master == m
    {
      assert Joinable(gs[m], geo, category, place.value, radius, now);
      OneMaster(gs, geo, category, place.value, radius, exclude, now, m, found.value.master);
    }
  }

  method FindDuplicate(gs: seq<Grievance>, geo: Geo, category: string, place: Option<Point>, radius: real,
                       exclude: nat, now: Time) returns (best: Option<Match>)
    ensures best == Duplicate(gs, geo, category, place, radius, exclude, now)
    ensures best.None? <==> place.None? || NothingToJoin(gs, geo, category, place.value, radius, exclude, now)
    ensures forall m: nat :: best.Some? && best.value.master == m <==>
              place.Some? && IsMaster(gs, geo, category, place.value, radius, exclude, now, m)
    ensures best.Some? ==>
      && place.Some? && IsMaster(gs, geo, category, place.value, radius, exclude, now, best.value.master)
      && best.value.distance == geo.dist(place.value, gs[best.value.master].place.value)
  {
    best := None;
    if place.None? {
      return;
    }
    var here := place.value;
    var candidates := Candidates(gs, geo, category, here, exclude, now);
    for n := 0 to |candidates|
      invariant best == Nearest(gs, geo, here, radius, candidates[..n])
    {
      assert candidates[..n + 1][..n] == candidates[..n];
      var distance := geo.dist(here, gs[candidates[n]].place.value);
      if distance <= radius && (best.None? || distance < best.value.distance) {
        best := Some(Match(candidates[n], distance));
      }
    }
    assert candidates[..|candidates|] == candidates;
    DuplicateIsMaster(gs, geo, category, place, radius, exclude, now, best);
    DuplicateIsTheNearestOpenReport(gs, geo, category, place, radius, exclude, now);
  }
}

/** The grievance row, as far as its lifecycle reads and writes it. */
module Grievances {
  import opened Wrappers
  import opened Clock
  import T = Taxonomy

  datatype Status =
    | Draft | Processing | AwaitingConfirmation | PhotoMismatch          // before the citizen confirms
    | Registered | PendingWindow | Duplicate | Dispatching | Submitted | DispatchFailed | Cancelled

  datatype Review = PendingOfficial | CitizenReview | Approved | Redirected | Rejected | AwaitingCitizen

  datatype Point = Point(lat: real, lon: real)
  datatype Geo = Geo(box: (Point, Point) -> bool, dist: (Point, Point) -> real)

  datatype Grievance = Grievance(
    status: Status,
    category: Option<string>,
    priority: Option<string>,
    disposition: Option<T.Disposition>,
    review: Option<Review>,
    dispatchEnabled: Option<bool>,     // None: no routing snapshot yet
    place: Option<Point>,
    reportCount: nat,
    duplicateOf: Option<nat>,
    windowEnds: Option<Time>,
    confirmedAt: Option<Time>,
    attempts: nat,
    timeline: seq<Status>)             // grievance_events, oldest first

  /** The citizen has not confirmed yet. */
  predicate PreFinal(s: Status) {
    s in {Draft, Processing, AwaitingConfirmation, PhotoMismatch}
  }
}
