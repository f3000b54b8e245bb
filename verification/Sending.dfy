/**
 send_pending and the worker's sweep, statement by statement.  What other senders and transactions
 do between this sender's commits is an argument, so each method is proved for every interleaving:
 it moves the system exactly as the corresponding steps of Dispatch do.
 */
module Sending {
  import opened Wrappers
  import opened Clock
  import opened Outbox
  import opened Runs
  import opened Dispatch
  import opened Clearance

  datatype Outcome = SentOut | Blocked | NotSent | LeftAlone

  /** How one invocation goes: its clock readings, the provider's answer, and the others' steps meanwhile. */
  datatype Turn = Turn(at: Time, gateAt: Time, reply: ProviderReply, before: seq<Event>, after: seq<Event>)

  ghost predicate OthersOnly(es: seq<Event>, who: SenderId) {
    forall k :: 0 <= k < |es| ==> NotBy(es[k], who)
  }

  /** Steps of others leave a sender's own flight alone. */
  lemma StepSparesFlight(w: World, e: Event, who: SenderId)
    requires NotBy(e, who)
    ensures who in w.flights ==> who in Step(w, e).flights && Step(w, e).flights[who] == w.flights[who]
    ensures who !in w.flights ==> who !in Step(w, e).flights
  {
  }

  lemma OthersKeepFlight(w: World, es: seq<Event>, who: SenderId)
    requires OthersOnly(es, who)
    ensures who in w.flights ==> who in Run(Step, w, es).flights && Run(Step, w, es).flights[who] == w.flights[who]
    ensures who !in w.flights ==> who !in Run(Step, w, es).flights
    decreases |es|
  {
    if es != [] {
      OthersKeepFlight(w, es[..|es| - 1], who);
      StepSparesFlight(Run(Step, w, es[..|es| - 1]), es[|es| - 1], who);
    }
  }

  /** The whole invocation as a run: what remains of it once the claim has been made. */
  function Script(who: SenderId, turn: Turn): seq<Event> {
    turn.before + [CallProvider(who, turn.reply)] + turn.after + [Mark(who)]
  }

  lemma ScriptRuns(w: World, who: SenderId, turn: Turn)
    ensures Run(Step, w, Script(who, turn))
         == Step(Run(Step, Step(Run(Step, w, turn.before), CallProvider(who, turn.reply)), turn.after), Mark(who))
  {
    RunSnoc(Step, w, turn.before + [CallProvider(who, turn.reply)] + turn.after, Mark(who));
    RunConcat(Step, w, turn.before + [CallProvider(who, turn.reply)], turn.after);
    RunSnoc(Step, w, turn.before, CallProvider(who, turn.reply));
  }

  /** The world after one invocation of send_pending for `id`. */
  function AfterTurn(w: World, who: SenderId, id: RowId, turn: Turn): World {
    var claimed := Step(w, Claim(who, id, turn.at, turn.gateAt));
    if who in claimed.flights then Run(Step, claimed, Script(who, turn)) else claimed
  }

  /** The world after the checks on a row that `who` has just claimed at `at`. */
  function AfterChecks(w: World, who: SenderId, id: RowId, checked: nat, at: Time): World
    requires id < |w.rows|
  {
    var row := w.rows[id];
    match Gate(w, id, row, checked, w.clock)
    case GiveUp => w.(rows := w.rows[id := Marked(row, Failed, None)])
    case NoChallenge => w.(rows := w.rows[id := Marked(row, Failed, None)])
    case OutsideWindow => w.(rows := w.rows[id := Marked(row, Blocked24h, None)])
    case StaleApproval(k) =>
      w.(rows := w.rows[id := Marked(row, Blocked24h, None)],
         challenges := if k < |w.challenges|
                       then w.challenges[k := w.challenges[k].(status := FallenBack, decidedAt := Some(w.clock))]
                       else w.challenges)
    case Send => w.(flights := w.flights[who := Flight(id, row.attempts, at + LEASE, Calling)])
  }

  lemma WonClaimStep(w: World, claimed: World, w': World, who: SenderId, id: RowId, at: Time, gateAt: Time)
    requires id < |w.rows| == |w.histories| && who !in w.flights && w.clock <= at <= gateAt && Claimable(w.rows[id], at)
    requires claimed == w.(clock := gateAt, rows := w.rows[id := Leased(w.rows[id], at, LEASE)],
                           histories := w.histories[id := ClaimedHistory(w.rows[id], w.histories[id], who)])
    requires w' == AfterChecks(claimed, who, id, Dispatch.Checked(w.rows[id], w.histories[id], who), at)
    ensures w' == Step(w, Claim(who, id, at, gateAt))
  {
    SameGate(w, claimed, id, claimed.rows[id], Dispatch.Checked(w.rows[id], w.histories[id], who), gateAt);
    assert w.rows[id := claimed.rows[id]] == claimed.rows;
    var row := claimed.rows[id];
    assert claimed.rows[id := Marked(row, Failed, None)] == w.rows[id := Marked(row, Failed, None)];
    assert claimed.rows[id := Marked(row, Blocked24h, None)] == w.rows[id := Marked(row, Blocked24h, None)];
  }

  lemma SameGate(w: World, w1: World, id: RowId, row: Row, checked: nat, now: Time)
    requires w1 == w.(clock := w1.clock, rows := w1.rows, histories := w1.histories)
    ensures Gate(w1, id, row, checked, now) == Gate(w, id, row, checked, now)
  {
  }

  class Session {
    const store: MessageStore
    var clock: Time
    var serviceWindow: Time
    var windows: map<nat, Time>
    var challenges: seq<Challenge>
    var lastInbound: map<nat, Time>
    var flights: map<SenderId, Flight>
    var histories: seq<History>

    function Now(): World
      reads this, store
    {
      World(clock, serviceWindow, store.rows, windows, challenges, lastInbound, flights, histories)
    }

    constructor (store: MessageStore, clock: Time, serviceWindow: Time)
      requires store.rows == []
      ensures this.store == store && Initial(Now())
    {
      this.store := store;
      this.clock, this.serviceWindow := clock, serviceWindow;
      windows, challenges, lastInbound, flights, histories := map[], [], map[], map[], [];
    }

    /** Let the rest of the system run. */
    method Others(es: seq<Event>)
      modifies this, store
      ensures Now() == Run(Step, old(Now()), es)
    {
      var w := Run(Step, Now(), es);
      clock, serviceWindow, store.rows := w.clock, w.serviceWindow, w.rows;
      windows, challenges, lastInbound := w.windows, w.challenges, w.lastInbound;
      flights, histories := w.flights, w.histories;
    }

    /** The sweep's query, in the session that will try the rows. */
    method Fetch(who: SenderId, limit: nat, now: Time) returns (ids: seq<RowId>)
      requires clock <= now && |histories| == |store.rows|
      modifies this
      ensures Now() == Step(old(Now()), Event.Fetch(who, limit, now))
      ensures ids == Sweepable(old(store.rows), 0, limit, now)
    {
      clock := now;
      ids := store.FetchSweepableOutbound(limit, now);
      histories := seq(|histories|, i requires 0 <= i < |histories| && |histories| == |store.rows| reads this, store =>
        if i in ids then Loaded(store.rows[i], histories[i], who) else histories[i]);
    }

    /** The claim's update, which also adds one to this session's own copy of the row. */
    method ClaimRow(who: SenderId, id: RowId, at: Time) returns (won: bool, checked: nat)
      requires |histories| == |store.rows|
      modifies this`histories, store
      ensures won <==> id < |old(store.rows)| && Claimable(old(store.rows)[id], at)
      ensures won ==>
        && store.rows == old(store.rows)[id := Leased(old(store.rows)[id], at, LEASE)]
        && histories == old(histories)[id := ClaimedHistory(old(store.rows)[id], old(histories)[id], who)]
        && checked == Checked(old(store.rows)[id], old(histories)[id], who)
      ensures !won ==>
        && store.rows == old(store.rows)
        && histories == if id < |old(histories)| then old(histories)[id := Used(old(histories)[id], who)] else old(histories)
    {
      won, checked := false, 0;
      if id >= |store.rows| {
        return;
      }
      var h := histories[id];
      won := store.ClaimOutbound(id, at, LEASE);
      if won {
        checked := if who in h.loads then h.loads[who] + 1 else store.rows[id].attempts;
      }
      var passes := won && checked <= MAX_SEND_ATTEMPTS < store.rows[id].attempts;
      histories := histories[id := h.(loads := h.loads - {who},
                                      over := if passes then h.over[store.rows[id].attempts := who] else h.over)];
    }

    /** The transaction that claims the row and runs the checks; true when the row is to be sent. */
    method ClaimAndCheck(who: SenderId, id: RowId, at: Time, gateAt: Time) returns (send: bool, result: Outcome)
      requires who !in flights && clock <= at <= gateAt && |histories| == |store.rows|
      modifies this, store
      ensures Now() == Step(old(Now()), Claim(who, id, at, gateAt))
      ensures send <==> who in flights
      ensures send ==> flights[who].phase.Calling?
      ensures result == LeftAlone <==> !(id < |old(store.rows)| && Claimable(old(store.rows)[id], at))
      ensures send ==> result != LeftAlone
      ensures result != SentOut
      ensures send <==> GoesOut(old(Now()), who, id, at, gateAt)
      ensures result == Blocked <==> IsBlocked(old(Now()), who, id, at, gateAt)
    {
      ClaimDecides(Now(), who, id, at, gateAt);
      send, result := false, NotSent;
      var won, checked := ClaimRow(who, id, at);
      if !won {
        clock, result := at, LeftAlone;
        return;
      }
      clock := gateAt;
      ghost var claimed := Now();
      send, result := Check(who, id, checked, at, gateAt);
      WonClaimStep(old(Now()), claimed, Now(), who, id, at, gateAt);
    }

    /** The checks on a row that was just claimed and whose attempts this session reads as `checked`. */
    method Check(who: SenderId, id: RowId, checked: nat, at: Time, gateAt: Time) returns (send: bool, result: Outcome)
      requires id < |store.rows| && who !in flights && clock == gateAt
      requires store.rows[id].status == Sending && store.rows[id].lockedUntil == Some(at + LEASE)
      modifies this, store
      ensures Now() == AfterChecks(old(Now()), who, id, checked, at)
      ensures send <==> who in flights
      ensures send <==> MayGo(old(Now()), id, old(store.rows)[id].reply, checked, gateAt)
      ensures result == Blocked <==>
        !send && ClosedAs(old(Now()), id, old(store.rows)[id].reply, checked, gateAt) == Blocked24h
      ensures send ==> flights[who].phase.Calling?
      ensures result in {NotSent, Blocked}
    {
      GateExactly(Now(), id, store.rows[id], checked, gateAt);
      send, result := false, NotSent;
      var message := store.rows[id];
      if checked > MAX_SEND_ATTEMPTS {
        store.MarkOutbound(id, Failed, None);
        return;
      }
      var conversation := message.reply.conversation;
      if conversation.Some? && conversation.value in windows && gateAt > windows[conversation.value] {
        store.MarkOutbound(id, Blocked24h, None);
        result := Blocked;
        return;
      }
      if message.reply.kind == "login_approval" {
        var found := FindChallenge(challenges, id, gateAt);
        if found.None? {
          store.MarkOutbound(id, Failed, None);
          return;
        }
        var challenge := challenges[found.value];
        if challenge.contact !in lastInbound || gateAt > lastInbound[challenge.contact] + serviceWindow {
          store.MarkOutbound(id, Blocked24h, None);
          challenges := challenges[found.value := challenge.(status := FallenBack, decidedAt := Some(gateAt))];
          result := Blocked;
          return;
        }
      }
      flights := flights[who := Flight(id, message.attempts, at + LEASE, Calling)];
      send := true;
    }

    /** The provider answers; its answer is known to nobody but this sender until the mark. */
    method SendRaw(who: SenderId, reply: ProviderReply)
      requires who in flights && flights[who].phase.Calling? && flights[who].row < |histories|
      modifies this
      ensures Now() == Step(old(Now()), CallProvider(who, reply))
    {
      var f := flights[who];
      flights := flights[who := f.(phase := Called(reply))];
      histories := histories[f.row := CalledHistory(histories[f.row], f, reply)];
    }

    /** Record the answer on the row, whoever holds its lease by now. */
    method Record(who: SenderId) returns (result: Outcome)
      requires who in flights && flights[who].phase.Called?
      requires flights[who].row < |histories| && flights[who].row < |store.rows|
      modifies this, store
      ensures Now() == Step(old(Now()), Mark(who))
      ensures result == if old(flights)[who].phase.reply.Accepted? then SentOut else NotSent
    {
      var f := flights[who];
      match f.phase.reply {
        case Refused =>
          store.MarkOutbound(f.row, Pending, None);
          result := NotSent;
        case Accepted(wamid) =>
          store.MarkOutbound(f.row, Sent, wamid);
          result := SentOut;
      }
      histories := histories[f.row := MarkedHistory(histories[f.row], f.phase.reply)];
      flights := flights - {who};
    }

    /**
     One invocation of send_pending.  It reports a delivery exactly when its claim won, the checks let
     the row through and the provider accepted.
     */
    method SendPending(who: SenderId, id: RowId, turn: Turn) returns (result: Outcome)
      requires Inv(Now()) && who !in flights && clock <= turn.at <= turn.gateAt
      requires OthersOnly(turn.before, who) && OthersOnly(turn.after, who)
      modifies this, store
      ensures Now() == AfterTurn(old(Now()), who, id, turn)
      ensures Inv(Now()) && who !in flights
      ensures result == SentOut <==> GoesOut(old(Now()), who, id, turn.at, turn.gateAt) && turn.reply.Accepted?
      ensures result == Blocked <==> IsBlocked(old(Now()), who, id, turn.at, turn.gateAt)
      ensures result == SentOut ==> !WindowOver(old(Now()), old(store.rows)[id].reply, turn.gateAt)
      ensures result == LeftAlone <==>
                !(id < |old(store.rows)| && Claimable(old(store.rows)[id], turn.at))
    {
      StepKeepsInv(Now(), Claim(who, id, turn.at, turn.gateAt));
      var send;
      send, result := ClaimAndCheck(who, id, turn.at, turn.gateAt);
      if !send {
        return;
      }
      ghost var w1 := Now();
      TurnFacts(w1, who, turn);
      Others(turn.before);
      SendRaw(who, turn.reply);
      Others(turn.after);
      result := Record(who);
    }
  }

  /** Between the commits of one invocation, whatever the others do. */
  lemma TurnFacts(w: World, who: SenderId, turn: Turn)
    requires Inv(w) && who in w.flights && w.flights[who].phase.Calling?
    requires OthersOnly(turn.before, who) && OthersOnly(turn.after, who)
    ensures var w1 := Run(Step, w, turn.before);
            var w2 := Step(w1, CallProvider(who, turn.reply));
            var w3 := Run(Step, w2, turn.after);
            && who in w1.flights && w1.flights[who] == w.flights[who] && w.flights[who].row < |w1.histories|
            && who in w3.flights && w3.flights[who] == w.flights[who].(phase := Called(turn.reply))
            && w.flights[who].row < |w3.histories| && w.flights[who].row < |w3.rows|
            && Step(w3, Mark(who)) == Run(Step, w, Script(who, turn))
            && Inv(Step(w3, Mark(who))) && who !in Step(w3, Mark(who)).flights
  {
    RunKeepsInv(w, turn.before);
    OthersKeepFlight(w, turn.before, who);
    var w1 := Run(Step, w, turn.before);
    CallFacts(w1, who, turn.reply);
    var w2 := Step(w1, CallProvider(who, turn.reply));
    RunKeepsInv(w2, turn.after);
    OthersKeepFlight(w2, turn.after, who);
    var w3 := Run(Step, w2, turn.after);
    MarkFacts(w3, who);
    ScriptRuns(w, who, turn);
  }

  lemma CallFacts(w: World, who: SenderId, reply: ProviderReply)
    requires Inv(w) && who in w.flights && w.flights[who].phase.Calling?
    ensures var w' := Step(w, CallProvider(who, reply));
            && Inv(w') && who in w'.flights && w'.flights[who] == w.flights[who].(phase := Called(reply))
            && w.flights[who].row < |w.histories|
  {
    StepKeepsInv(w, CallProvider(who, reply));
  }

  lemma MarkFacts(w: World, who: SenderId)
    requires Inv(w) && who in w.flights && w.flights[who].phase.Called?
    ensures Inv(Step(w, Mark(who))) && who !in Step(w, Mark(who)).flights
    ensures w.flights[who].row < |w.histories| && w.flights[who].row < |w.rows|
  {
    StepKeepsInv(w, Mark(who));
  }

  // ----- the sweep -----

  /** The sweep's own steps, one send_pending after another. */
  ghost function AfterTurns(w: World, who: SenderId, ids: seq<RowId>, turns: seq<Turn>): World
    requires |turns| >= |ids|
    decreases |ids|
  {
    if ids == [] then w
    else
      var n := |ids| - 1;
      AfterTurn(AfterTurns(w, who, ids[..n], turns), who, ids[n], turns[n])
  }

  /** The clock readings are in order and the others' steps are not this worker's. */
  ghost predicate Feasible(w: World, who: SenderId, ids: seq<RowId>, turns: seq<Turn>) {
    && |turns| >= |ids|
    && forall k {:trigger turns[k]} :: 0 <= k < |ids| ==>
         && AfterTurns(w, who, ids[..k], turns).clock <= turns[k].at <= turns[k].gateAt
         && OthersOnly(turns[k].before, who) && OthersOnly(turns[k].after, who)
  }

  lemma FeasibleAt(w: World, who: SenderId, ids: seq<RowId>, turns: seq<Turn>, k: nat)
    requires Feasible(w, who, ids, turns) && k < |ids|
    ensures AfterTurns(w, who, ids[..k], turns).clock <= turns[k].at <= turns[k].gateAt
    ensures OthersOnly(turns[k].before, who) && OthersOnly(turns[k].after, who)
    ensures AfterTurns(w, who, ids[..k + 1], turns)
         == AfterTurn(AfterTurns(w, who, ids[..k], turns), who, ids[k], turns[k])
  {
    assert ids[..k + 1][..k] == ids[..k];
  }

  /** The world after the sweep's query, and after the whole sweep. */
  function Fetched(w: World, who: SenderId, limit: nat, now: Time): World {
    Step(w, Event.Fetch(who, limit, now))
  }

  ghost predicate SweepFeasible(w: World, who: SenderId, limit: nat, now: Time, turns: seq<Turn>) {
    w.clock <= now && Feasible(Fetched(w, who, limit, now), who, Sweepable(w.rows, 0, limit, now), turns)
  }

  ghost function AfterSweep(w: World, who: SenderId, limit: nat, now: Time, turns: seq<Turn>): World
    requires SweepFeasible(w, who, limit, now, turns)
  {
    AfterTurns(Fetched(w, who, limit, now), who, Sweepable(w.rows, 0, limit, now), turns)
  }

  /**
   sweep_pending_outbound: load the claimable rows, then try every one of them, oldest first.  Their
   attempts are checked on the copies loaded at the start.
   */
  method SweepPendingOutbound(session: Session, who: SenderId, limit: nat, now: Time, turns: seq<Turn>)
    returns (attempted: nat)
    requires Inv(session.Now()) && who !in session.flights
    requires SweepFeasible(session.Now(), who, limit, now, turns)
    modifies session, session.store
    ensures Inv(session.Now()) && who !in session.flights
    ensures attempted == |Sweepable(old(session.store.rows), 0, limit, now)|
    ensures session.Now() == AfterSweep(old(session.Now()), who, limit, now, turns)
  {
    StepKeepsInv(session.Now(), Event.Fetch(who, limit, now));
    var rows := session.Fetch(who, limit, now);
    ghost var w := session.Now();
    for k := 0 to |rows|
      invariant session.Now() == AfterTurns(w, who, rows[..k], turns)
      invariant Inv(session.Now()) && who !in session.flights
    {
      FeasibleAt(w, who, rows, turns, k);
      var _ := session.SendPending(who, rows[k], turns[k]);
    }
    assert rows[..|rows|] == rows;
    attempted := |rows|;
  }

  ghost predicate Quiet(turn: Turn) {
    turn.before == [] && turn.after == [] && turn.reply.Accepted?
  }

  /** One history for each row, and this sender is not at work. */
  predicate Idle(w: World, who: SenderId) {
    |w.histories| == |w.rows| && who !in w.flights
  }

  /** The claim closes the row or sends it off, and touches no other. */
  lemma QuietClaim(w: World, who: SenderId, id: RowId, turn: Turn)
    requires Idle(w, who) && w.clock <= turn.at <= turn.gateAt
    requires id < |w.rows| && Claimable(w.rows[id], turn.at)
    ensures var w1 := Step(w, Claim(who, id, turn.at, turn.gateAt));
            && |w1.histories| == |w1.rows| && w1.clock == turn.gateAt
            && w1.rows == w.rows[id := w1.rows[id]]
            && (who in w1.flights ==> w1.flights[who].row == id && w1.flights[who].phase.Calling?)
            && (who !in w1.flights ==> Terminal(w1.rows[id]))
  {
    ClaimShape(w, who, id, turn.at, turn.gateAt);
  }

  lemma QuietCall(w: World, who: SenderId, id: RowId, reply: ProviderReply)
    requires |w.histories| == |w.rows| && id < |w.rows| && reply.Accepted?
    requires who in w.flights && w.flights[who].row == id && w.flights[who].phase.Calling?
    ensures var w1 := Step(Step(w, CallProvider(who, reply)), Mark(who));
            && Idle(w1, who) && w1.clock == w.clock
            && w1.rows == w.rows[id := Marked(w.rows[id], Sent, reply.wamid)]
  {
    var w1 := Step(w, CallProvider(who, reply));
    assert w1.flights[who] == w.flights[who].(phase := Called(reply)) && w1.rows == w.rows;
  }

  /** Undisturbed and accepted, one invocation finishes the row it claims and touches no other. */
  lemma QuietTurnFinishes(w: World, who: SenderId, id: RowId, turn: Turn)
    requires Idle(w, who) && Quiet(turn)
    requires w.clock <= turn.at <= turn.gateAt && id < |w.rows| && Claimable(w.rows[id], turn.at)
    ensures var w' := AfterTurn(w, who, id, turn);
            Idle(w', who) && w'.clock >= w.clock && Finished(w.rows, w'.rows, [id])
  {
    var w1 := Step(w, Claim(who, id, turn.at, turn.gateAt));
    QuietClaim(w, who, id, turn);
    if who in w1.flights {
      ScriptRuns(w1, who, turn);
      QuietCall(w1, who, id, turn.reply);
      assert Run(Step, w1, Script(who, turn)) == Step(Step(w1, CallProvider(who, turn.reply)), Mark(who));
    }
  }

  /** The rows `ids` are finished and no other row has changed. */
  ghost predicate Finished(rows: seq<Row>, rows': seq<Row>, ids: seq<RowId>) {
    && |rows'| == |rows|
    && (forall j :: 0 <= j < |ids| ==> ids[j] < |rows| && Terminal(rows'[ids[j]]))
    && (forall i :: 0 <= i < |rows| && i !in ids ==> rows'[i] == rows[i])
  }

  lemma OneMoreFinished(rows: seq<Row>, rows1: seq<Row>, rows2: seq<Row>, ids: seq<RowId>, id: RowId)
    requires Finished(rows, rows1, ids) && id !in ids && id < |rows|
    requires Finished(rows1, rows2, [id])
    ensures Finished(rows, rows2, ids + [id])
  {
    forall j | 0 <= j < |ids| ensures rows2[ids[j]] == rows1[ids[j]] {
      assert ids[j] in ids && ids[j] !in [id];
    }
  }

  /** Claimable rows, no row twice. */
  predicate Waiting(rows: seq<Row>, ids: seq<RowId>, now: Time) {
    && (forall k :: 0 <= k < |ids| ==> ids[k] < |rows| && Claimable(rows[ids[k]], now))
    && (forall j, k :: 0 <= j < k < |ids| ==> ids[j] != ids[k])
  }

  lemma FewerTurnsAreFeasible(w: World, who: SenderId, ids: seq<RowId>, turns: seq<Turn>, n: nat)
    requires Feasible(w, who, ids, turns) && n <= |ids|
    ensures Feasible(w, who, ids[..n], turns)
  {
    assert forall k :: 0 <= k < n ==> ids[..n][..k] == ids[..k];
  }

  lemma StillClaimable(row: Row, now: Time, later: Time)
    requires Claimable(row, now) && now <= later
    ensures Claimable(row, later)
  {
  }

  lemma OneMoreQuietTurn(rows: seq<Row>, w: World, who: SenderId, ids: seq<RowId>, id: RowId, now: Time, turn: Turn)
    requires Idle(w, who) && Finished(rows, w.rows, ids) && Quiet(turn)
    requires id !in ids && id < |rows| && Claimable(rows[id], now) && now <= w.clock <= turn.at <= turn.gateAt
    ensures var w' := AfterTurn(w, who, id, turn);
            Idle(w', who) && w'.clock >= w.clock && Finished(rows, w'.rows, ids + [id])
  {
    StillClaimable(w.rows[id], now, turn.at);
    QuietTurnFinishes(w, who, id, turn);
    OneMoreFinished(rows, w.rows, AfterTurn(w, who, id, turn).rows, ids, id);
  }

  lemma {:induction false} QuietTurnsFinish(w: World, who: SenderId, ids: seq<RowId>, now: Time, turns: seq<Turn>)
    requires Idle(w, who) && Waiting(w.rows, ids, now) && now <= w.clock
    requires Feasible(w, who, ids, turns) && forall j :: 0 <= j < |ids| ==> Quiet(turns[j])
    ensures var w' := AfterTurns(w, who, ids, turns);
            Idle(w', who) && w'.clock >= w.clock && Finished(w.rows, w'.rows, ids)
    decreases |ids|
  {
    if ids != [] {
      var n := |ids| - 1;
      FewerTurnsAreFeasible(w, who, ids, turns, n);
      QuietTurnsFinish(w, who, ids[..n], now, turns);
      TurnIsInOrder(w, who, ids, turns, n);
      LastIsNew(ids);
      OneMoreQuietTurn(w.rows, AfterTurns(w, who, ids[..n], turns), who, ids[..n], ids[n], now, turns[n]);
      AfterTurnsSnoc(w, who, ids, turns);
    }
  }

  lemma TurnIsInOrder(w: World, who: SenderId, ids: seq<RowId>, turns: seq<Turn>, k: nat)
    requires Feasible(w, who, ids, turns) && k < |ids|
    ensures AfterTurns(w, who, ids[..k], turns).clock <= turns[k].at <= turns[k].gateAt
  {
  }

  lemma LastIsNew(ids: seq<RowId>)
    requires ids != [] && forall j, k :: 0 <= j < k < |ids| ==> ids[j] != ids[k]
    ensures ids[|ids| - 1] !in ids[..|ids| - 1] && ids == ids[..|ids| - 1] + [ids[|ids| - 1]]
  {
  }

  lemma AfterTurnsSnoc(w: World, who: SenderId, ids: seq<RowId>, turns: seq<Turn>)
    requires ids != [] && |turns| >= |ids|
    ensures var n := |ids| - 1;
            AfterTurns(w, who, ids, turns) == AfterTurn(AfterTurns(w, who, ids[..n], turns), who, ids[n], turns[n])
  {
  }

  /** An undisturbed sweep whose calls are all accepted finishes the rows it fetched and touches no other. */
  lemma QuietSweepFinishes(w: World, who: SenderId, limit: nat, now: Time, turns: seq<Turn>)
    requires Idle(w, who) && SweepFeasible(w, who, limit, now, turns)
    requires forall j :: 0 <= j < |Sweepable(w.rows, 0, limit, now)| ==> Quiet(turns[j])
    ensures Finished(w.rows, AfterSweep(w, who, limit, now, turns).rows, Sweepable(w.rows, 0, limit, now))
  {
    SweepIsOldestClaimable(w.rows, 0, limit, now);
    var w1 := Fetched(w, who, limit, now);
    FetchShape(w, who, limit, now);
    QuietTurnsFinish(w1, who, Sweepable(w.rows, 0, limit, now), now, turns);
  }

  lemma FetchShape(w: World, who: SenderId, limit: nat, now: Time)
    requires w.clock <= now && |w.histories| == |w.rows|
    ensures var w1 := Step(w, Event.Fetch(who, limit, now));
            w1.rows == w.rows && w1.flights == w.flights && w1.clock == now
  {
  }
}
