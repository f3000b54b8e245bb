/** Who may be sent what, and when: the send-time checks told from the tables and the clock alone. */
module Clearance {
  import opened Wrappers
  import opened Clock
  import opened Outbox
  import opened Runs
  import opened Dispatch

  /** The customer-service window of the reply's conversation has closed. */
  ghost predicate WindowOver(w: World, reply: Reply, now: Time) {
    reply.conversation.Some? && reply.conversation.value in w.windows && w.windows[reply.conversation.value] < now
  }

  /** A browser is still waiting on the challenge that the row `id` carries. */
  ghost predicate Waits(c: Challenge, id: RowId, now: Time) {
    c.outbound == Some(id) && c.status == AwaitingDecision && now < c.expiresAt
  }

  /** `k` is the challenge the row is about; of several, the latest. */
  ghost predicate IsAbout(challenges: seq<Challenge>, id: RowId, now: Time, k: nat) {
    && k < |challenges| && Waits(challenges[k], id, now)
    && forall i :: k < i < |challenges| ==> !Waits(challenges[i], id, now)
  }

  ghost predicate NobodyWaits(challenges: seq<Challenge>, id: RowId, now: Time) {
    forall k :: 0 <= k < |challenges| ==> !Waits(challenges[k], id, now)
  }

  /** The contact wrote within the service window. */
  ghost predicate InTouch(w: World, contact: nat, now: Time) {
    contact in w.lastInbound && now <= w.lastInbound[contact] + w.serviceWindow
  }

  /** The row may go out: not tried too often, its window open, and a login approval still wanted by one in touch. */
  ghost predicate MayGo(w: World, id: RowId, reply: Reply, count: nat, now: Time) {
    && count <= 5 && !WindowOver(w, reply, now)
    && (reply.kind == "login_approval" ==>
          exists k: nat :: IsAbout(w.challenges, id, now, k) && InTouch(w, w.challenges[k].contact, now))
  }

  /** The challenge of an approval that comes too late for its contact. */
  ghost predicate TooLateFor(w: World, id: RowId, reply: Reply, count: nat, now: Time, k: nat) {
    && count <= 5 && !WindowOver(w, reply, now) && reply.kind == "login_approval"
    && IsAbout(w.challenges, id, now, k) && !InTouch(w, w.challenges[k].contact, now)
  }

  /** The status a row is closed with that may not go out. */
  ghost function ClosedAs(w: World, id: RowId, reply: Reply, count: nat, now: Time): Status {
    if count > 5 then Failed
    else if WindowOver(w, reply, now) then Blocked24h
    else if NobodyWaits(w.challenges, id, now) then Failed
    else Blocked24h
  }

  /** The count that decides: what the sweep's session had loaded, or the row's own, with this claim. */
  ghost function CountRead(w: World, who: SenderId, id: RowId): nat
    requires id < |w.rows| == |w.histories|
  {
    1 + if who in w.histories[id].loads then w.histories[id].loads[who] else w.rows[id].attempts
  }

  lemma {:induction false} LatestIsFound(challenges: seq<Challenge>, id: RowId, now: Time)
    ensures var k := FindChallenge(challenges, id, now);
      && (k.None? <==> NobodyWaits(challenges, id, now))
      && (k.Some? ==> IsAbout(challenges, id, now, k.value))
  {
    if challenges != [] {
      var n := |challenges| - 1;
      LatestIsFound(challenges[..n], id, now);
      assert Waits(challenges[n], id, now) <==> LiveChallenge(challenges[n], id, now);
      assert forall i :: 0 <= i < n ==> challenges[..n][i] == challenges[i];
    }
  }

  lemma OneLatest(challenges: seq<Challenge>, id: RowId, now: Time, j: nat, k: nat)
    requires IsAbout(challenges, id, now, j) && IsAbout(challenges, id, now, k)
    ensures j == k && !NobodyWaits(challenges, id, now)
  {
  }

  /** The five ways the checks can end are these. */
  lemma GateExactly(w: World, id: RowId, row: Row, count: nat, now: Time)
    ensures var v := Gate(w, id, row, count, now);
      && (v == Send <==> MayGo(w, id, row.reply, count, now))
      && (v == GiveUp || v == NoChallenge ==> ClosedAs(w, id, row.reply, count, now) == Failed)
      && (v == OutsideWindow || v.StaleApproval? ==> ClosedAs(w, id, row.reply, count, now) == Blocked24h)
      && (forall k: nat :: v == StaleApproval(k) <==> TooLateFor(w, id, row.reply, count, now, k))
  {
    LatestIsFound(w.challenges, id, now);
    var found := FindChallenge(w.challenges, id, now);
    forall k: nat | IsAbout(w.challenges, id, now, k) ensures found == Some(k) {
      OneLatest(w.challenges, id, now, k, found.value);
    }
  }

  /** The row and the challenges as the claim leaves them. */
  ghost predicate Cleared(w: World, w': World, who: SenderId, id: RowId, at: Time, gateAt: Time)
    requires id < |w.rows| == |w.histories|
  {
    var row, count := w.rows[id], CountRead(w, who, id);
    && |w'.rows| == |w.rows| && w'.rows == w.rows[id := w'.rows[id]]
    && w'.rows[id].reply == row.reply && w'.rows[id].attempts == row.attempts + 1 && w'.rows[id].wamid == row.wamid
    && (if MayGo(w, id, row.reply, count, gateAt)
        then && w'.rows[id].status == Sending && w'.rows[id].lockedUntil == Some(at + 30_000_000)
             && w'.flights == w.flights[who := Flight(id, row.attempts + 1, at + 30_000_000, Calling)]
        else && w'.rows[id].status == ClosedAs(w, id, row.reply, count, gateAt) && w'.rows[id].lockedUntil == None
             && w'.flights == w.flights)
    && ((forall k: nat :: !TooLateFor(w, id, row.reply, count, gateAt, k)) ==> w'.challenges == w.challenges)
    && (forall k: nat :: TooLateFor(w, id, row.reply, count, gateAt, k) ==>
          && k < |w.challenges|
          && w'.challenges == w.challenges[k := w.challenges[k].(status := FallenBack, decidedAt := Some(gateAt))])
  }

  /** The row is waiting, or a lease on it has run out. */
  ghost predicate Free(row: Row, at: Time) {
    row.status == Pending || (row.status == Sending && row.lockedUntil.Some? && row.lockedUntil.value < at)
  }

  /**
   A won claim puts the sender on its way to the provider exactly when the count it read is at most five, the
   conversation's window is absent or open, and an approval is still wanted by a contact in touch; in every
   other case the row is closed, and as what is told here too.
   */
  lemma SentOffExactlyWhenCleared(w: World, who: SenderId, id: RowId, at: Time, gateAt: Time)
    requires id < |w.rows| == |w.histories| && who !in w.flights && w.clock <= at <= gateAt && Free(w.rows[id], at)
    ensures Cleared(w, Step(w, Claim(who, id, at, gateAt)), who, id, at, gateAt)
  {
    var row := w.rows[id];
    GateExactly(w, id, Leased(row, at, LEASE), CountRead(w, who, id), gateAt);
  }

  /** And a claim of a row that is not free sends nobody off and leaves rows and challenges as they are. */
  lemma NotFreeNotTouched(w: World, who: SenderId, id: RowId, at: Time, gateAt: Time)
    requires who !in w.flights && (id < |w.rows| ==> !Free(w.rows[id], at))
    ensures var w' := Step(w, Claim(who, id, at, gateAt));
      w'.rows == w.rows && w'.flights == w.flights && w'.challenges == w.challenges
  {
  }

  /** The claim wins and the row may go out. */
  ghost predicate GoesOut(w: World, who: SenderId, id: RowId, at: Time, gateAt: Time)
    requires |w.rows| == |w.histories|
  {
    id < |w.rows| && Free(w.rows[id], at) && MayGo(w, id, w.rows[id].reply, CountRead(w, who, id), gateAt)
  }

  /** The claim wins, but the customer-service window or the contact's last message is too long ago. */
  ghost predicate IsBlocked(w: World, who: SenderId, id: RowId, at: Time, gateAt: Time)
    requires |w.rows| == |w.histories|
  {
    && id < |w.rows| && Free(w.rows[id], at)
    && !MayGo(w, id, w.rows[id].reply, CountRead(w, who, id), gateAt)
    && ClosedAs(w, id, w.rows[id].reply, CountRead(w, who, id), gateAt) == Blocked24h
  }

  lemma ClaimDecides(w: World, who: SenderId, id: RowId, at: Time, gateAt: Time)
    requires |w.rows| == |w.histories| && who !in w.flights && w.clock <= at <= gateAt
    ensures var w' := Step(w, Claim(who, id, at, gateAt));
      && |w'.rows| == |w.rows|
      && (who in w'.flights <==> GoesOut(w, who, id, at, gateAt))
      && (id < |w.rows| && Free(w.rows[id], at) && w'.rows[id].status == Blocked24h <==> IsBlocked(w, who, id, at, gateAt))
  {
    if id < |w.rows| && Free(w.rows[id], at) {
      SentOffExactlyWhenCleared(w, who, id, at, gateAt);
    } else {
      NotFreeNotTouched(w, who, id, at, gateAt);
    }
  }

  /** The mark: accepted rows are sent, with the provider's id if it gave one, and refused ones wait again. */
  lemma AnswerOnTheRow(w: World, who: SenderId)
    requires who in w.flights && w.flights[who].phase.Called? && w.flights[who].row < |w.rows| == |w.histories|
    ensures var f, w' := w.flights[who], Step(w, Mark(who));
            var row := w.rows[f.row];
            && w'.flights == w.flights - {who} && w'.challenges == w.challenges
            && (f.phase.reply == Refused ==> w'.rows == w.rows[f.row := row.(status := Pending, lockedUntil := None)])
            && (f.phase.reply == Accepted(None) ==> w'.rows == w.rows[f.row := row.(status := Sent, lockedUntil := None)])
            && (forall id: string :: f.phase.reply == Accepted(Some(id)) ==>
                  w'.rows == w.rows[f.row := row.(status := Sent, lockedUntil := None, wamid := Some(id))])
  {
  }

  /** The sweep's query notes, in its session, the attempts of each row it returns; the claim will read that note. */
  lemma SweepNotesAttempts(w: World, who: SenderId, limit: nat, at: Time, id: RowId)
    requires w.clock <= at && id < |w.rows| == |w.histories|
    ensures var w' := Step(w, Event.Fetch(who, limit, at));
      && w' == w.(clock := at, histories := w'.histories) && |w'.histories| == |w.histories|
      && w'.histories[id] ==
           if id in Sweepable(w.rows, 0, limit, at)
           then w.histories[id].(loads := w.histories[id].loads[who := w.rows[id].attempts])
           else w.histories[id]
  {
  }
}
