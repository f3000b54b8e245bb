/**
 Sending the outbox.  Any number of senders, each running claim - provider call - mark, act on the
 shared table; they may crash anywhere, their leases may run out while they are still at work, and
 a late sender's mark still lands.
 */
module Dispatch {
  import opened Wrappers
  import opened Clock
  import opened Outbox
  import opened Runs
  import Attempts

  const LEASE: Time := 30 * SECOND
  const MAX_SEND_ATTEMPTS: nat := 5

  type SenderId = nat

  /** A browser-login challenge, as far as the send-time check reads and writes it. */
  datatype ChallengeStatus = AwaitingDecision | FallenBack | Decided
  datatype Challenge = Challenge(contact: nat, outbound: Option<RowId>, status: ChallengeStatus,
                                 expiresAt: Time, decidedAt: Option<Time>)

  datatype ProviderReply = Accepted(wamid: Option<string>) | Refused
  datatype Phase = Calling | Called(reply: ProviderReply)

  /** One invocation of send_pending between its first commit and its last. */
  datatype Flight = Flight(row: RowId, attempt: nat, lease: Time, phase: Phase)

  /**
   What is known of one row outside the table: the attempt numbers under which the provider was called,
   how often it accepted, how the senders ended; the attempt counts that sweeps have loaded and not yet
   used; and the attempts that such a count, outdated by then, let past the attempt check, each with the
   sender that made it.  A sender is one database session.
   */
  datatype History = History(calls: seq<nat>, accepted: nat, markedSent: nat, markedPending: nat,
                             lostAfterAccept: nat, loads: map<SenderId, nat>, over: map<nat, SenderId>)

  datatype World = World(
    clock: Time,
    serviceWindow: Time,
    rows: seq<Row>,
    windows: map<nat, Time>,       // service_window_expires_at by conversation
    challenges: seq<Challenge>,
    lastInbound: map<nat, Time>,   // latest incoming message by contact
    flights: map<SenderId, Flight>,
    histories: seq<History>)       // one for each row

  datatype Event =
    | Tick(to: Time)
    | Store(draft: Reply)
    | Elsewhere(windows: map<nat, Time>, challenges: seq<Challenge>, lastInbound: map<nat, Time>)
    | Fetch(who: SenderId, limit: nat, at: Time)
    | Claim(who: SenderId, id: RowId, at: Time, gateAt: Time)
    | CallProvider(who: SenderId, reply: ProviderReply)
    | Mark(who: SenderId)
    | Crash(who: SenderId)

  /** The event is not a step of sender `who`. */
  predicate NotBy(e: Event, who: SenderId) {
    e.Tick? || e.Store? || e.Elsewhere? || e.who != who
  }

  // ----- the checks between the claim and the provider call -----

  predicate LiveChallenge(c: Challenge, id: RowId, now: Time) {
    c.outbound == Some(id) && c.status.AwaitingDecision? && c.expiresAt > now
  }

  function FindChallenge(challenges: seq<Challenge>, id: RowId, now: Time): (k: Option<nat>)
    ensures k.Some? ==> k.value < |challenges| && LiveChallenge(challenges[k.value], id, now)
    ensures k.None? ==> forall i :: 0 <= i < |challenges| ==> !LiveChallenge(challenges[i], id, now)
  {
    if challenges == [] then None
    else
      var n := |challenges| - 1;
      if LiveChallenge(challenges[n], id, now) then Some(n) else FindChallenge(challenges[..n], id, now)
  }

  datatype Verdict = Send | GiveUp | OutsideWindow | NoChallenge | StaleApproval(challenge: nat)

  /**
   The count the attempt check reads.  A session that loaded the row before the claim keeps its copy,
   and the claim only adds one to that; a session that did not reads the row it has just claimed.
   */
  function Checked(row: Row, h: History, who: SenderId): nat {
    (if who in h.loads then h.loads[who] else row.attempts) + 1
  }

  predicate LetThrough(row: Row, h: History, who: SenderId) {
    Checked(row, h, who) <= MAX_SEND_ATTEMPTS
  }

  /** What send_pending decides about a row it has just claimed, having read `checked` as its attempts. */
  function Gate(w: World, id: RowId, row: Row, checked: nat, now: Time): Verdict {
    if checked > MAX_SEND_ATTEMPTS then GiveUp
    else if row.reply.conversation.Some? && row.reply.conversation.value in w.windows
            && now > w.windows[row.reply.conversation.value] then OutsideWindow
    else if row.reply.kind == "login_approval" then
      var k := FindChallenge(w.challenges, id, now);
      if k.None? then NoChallenge
      else
        var contact := w.challenges[k.value].contact;
        if contact !in w.lastInbound || now > w.lastInbound[contact] + w.serviceWindow
        then StaleApproval(k.value) else Send
    else Send
  }

  // ----- the steps -----

  const BLANK := History([], 0, 0, 0, 0, map[], map[])

  /** The sweep's query loads the rows into its session. */
  function FetchStep(w: World, who: SenderId, limit: nat, at: Time): World {
    if at < w.clock || |w.histories| != |w.rows| then w
    else
      var ids := Sweepable(w.rows, 0, limit, at);
      w.(clock := at,
         histories := seq(|w.histories|, i requires 0 <= i < |w.histories| =>
           if i in ids then Loaded(w.rows[i], w.histories[i], who) else w.histories[i]))
  }

  function Loaded(row: Row, h: History, who: SenderId): History {
    h.(loads := h.loads[who := row.attempts])
  }

  /** The claim uses the loaded count up, won or lost. */
  function Used(h: History, who: SenderId): History {
    h.(loads := h.loads - {who})
  }

  function ClaimedHistory(row: Row, h: History, who: SenderId): History {
    if LetThrough(row, h, who) && row.attempts >= MAX_SEND_ATTEMPTS
    then Used(h, who).(over := h.over[row.attempts + 1 := who])
    else Used(h, who)
  }

  /** The transaction from the claim to the commit before the provider call. */
  function ClaimStep(w: World, who: SenderId, id: RowId, at: Time, gateAt: Time): World {
    if who in w.flights || !(w.clock <= at <= gateAt) then w
    else if id >= |w.rows| || id >= |w.histories| then w.(clock := at)
    else if !Claimable(w.rows[id], at) then
      w.(clock := at, histories := w.histories[id := Used(w.histories[id], who)])
    else
      var was, h := w.rows[id], w.histories[id];
      var row := Leased(was, at, LEASE);
      var w' := w.(clock := gateAt, histories := w.histories[id := ClaimedHistory(was, h, who)]);
      match Gate(w, id, row, Checked(was, h, who), gateAt)
      case GiveUp => w'.(rows := w.rows[id := Marked(row, Failed, None)])
      case NoChallenge => w'.(rows := w.rows[id := Marked(row, Failed, None)])
      case OutsideWindow => w'.(rows := w.rows[id := Marked(row, Blocked24h, None)])
      case StaleApproval(k) =>
        w'.(rows := w.rows[id := Marked(row, Blocked24h, None)],
            challenges := if k < |w.challenges|
                          then w.challenges[k := w.challenges[k].(status := FallenBack, decidedAt := Some(gateAt))]
                          else w.challenges)
      case Send =>
        w'.(rows := w.rows[id := row],
            flights := w.flights[who := Flight(id, row.attempts, at + LEASE, Calling)])
  }

  function CallStep(w: World, who: SenderId, reply: ProviderReply): World {
    if who !in w.flights || !w.flights[who].phase.Calling? then w
    else
      var f := w.flights[who];
      if f.row >= |w.histories| then w
      else
        w.(flights := w.flights[who := f.(phase := Called(reply))],
           histories := w.histories[f.row := CalledHistory(w.histories[f.row], f, reply)])
  }

  function MarkStep(w: World, who: SenderId): World {
    if who !in w.flights || !w.flights[who].phase.Called? then w
    else
      var f := w.flights[who];
      if f.row >= |w.rows| || f.row >= |w.histories| then w
      else
        w.(flights := w.flights - {who},
           rows := w.rows[f.row := MarkedRow(w.rows[f.row], f.phase.reply)],
           histories := w.histories[f.row := MarkedHistory(w.histories[f.row], f.phase.reply)])
  }

  function CrashStep(w: World, who: SenderId): World {
    if who !in w.flights then w
    else
      var f := w.flights[who];
      if f.row >= |w.histories| then w
      else w.(flights := w.flights - {who},
              histories := w.histories[f.row := CrashedHistory(w.histories[f.row], f)])
  }

  function Step(w: World, e: Event): World {
    match e
    case Tick(to) => if to >= w.clock then w.(clock := to) else w
    case Store(draft) =>
      if HasKey(w.rows, draft.key) then w
      else w.(rows := Stored(w.rows, draft), histories := w.histories + [BLANK])
    case Elsewhere(windows, challenges, inbound) =>
      w.(windows := windows, challenges := challenges, lastInbound := inbound)
    case Fetch(who, limit, at) => FetchStep(w, who, limit, at)
    case Claim(who, id, at, gateAt) => ClaimStep(w, who, id, at, gateAt)
    case CallProvider(who, reply) => CallStep(w, who, reply)
    case Mark(who) => MarkStep(w, who)
    case Crash(who) => CrashStep(w, who)
  }

  /** Nobody has sent anything yet; the rows are waiting. */
  ghost predicate Initial(w: World) {
    w.rows == [] && w.histories == [] && w.flights == map[]
  }

  // ----- what holds in every run, one row at a time -----

  /** The senders at work on one row. */
  function Crew(flights: map<SenderId, Flight>, id: RowId): map<SenderId, Flight> {
    map who | who in flights && flights[who].row == id :: flights[who]
  }

  /** Those whose provider call has returned and whose mark is still to come. */
  function Returned(crew: map<SenderId, Flight>): set<SenderId> {
    set who | who in crew && crew[who].phase.Called?
  }

  function Acknowledged(crew: map<SenderId, Flight>): set<SenderId> {
    set who | who in crew && crew[who].phase.Called? && crew[who].phase.reply.Accepted?
  }

  /** An attempt number within the limit, or one that an outdated count let through. */
  predicate Numbered(over: map<nat, SenderId>, attempt: nat) {
    1 <= attempt && (attempt <= MAX_SEND_ATTEMPTS || attempt in over)
  }

  ghost predicate RowOk(row: Row, h: History) {
    && (row.status == Sending <==> row.lockedUntil.Some?)
    && row.attempts <= MAX_SEND_ATTEMPTS + 1 + h.markedPending + |h.over|
    && (row.status in {Pending, Sending} && row.attempts > MAX_SEND_ATTEMPTS ==>
          row.attempts <= MAX_SEND_ATTEMPTS + h.markedPending + |h.over|)
  }

  ghost predicate CallsOk(attempts: nat, calls: seq<nat>, over: map<nat, SenderId>) {
    && (forall a :: a in calls ==> Numbered(over, a) && a <= attempts)
    && Attempts.Distinct(calls)
  }

  /** Loaded counts lag behind; whom one of them let through holds no count that could do so again. */
  ghost predicate LoadsOk(attempts: nat, loads: map<SenderId, nat>, over: map<nat, SenderId>) {
    && (forall who :: who in loads ==> loads[who] <= attempts)
    && (forall a :: a in over ==> MAX_SEND_ATTEMPTS < a <= attempts)
    && (forall a :: a in over && over[a] in loads ==> loads[over[a]] >= MAX_SEND_ATTEMPTS)
    && (forall a, b :: a in over && b in over && a != b ==> over[a] != over[b])
  }

  /** Each sender owns an attempt number of its own, spent once it has called. */
  ghost predicate CrewOk(attempts: nat, calls: seq<nat>, over: map<nat, SenderId>, crew: map<SenderId, Flight>) {
    && (forall who :: who in crew ==>
          && Numbered(over, crew[who].attempt) && crew[who].attempt <= attempts
          && (crew[who].phase.Calling? <==> crew[who].attempt !in calls))
    && (forall p, q :: p in crew && q in crew && p != q ==> crew[p].attempt != crew[q].attempt)
  }

  /** Every call and every acceptance is accounted for. */
  ghost predicate Balanced(h: History, crew: map<SenderId, Flight>) {
    && h.markedSent + h.markedPending + |Returned(crew)| <= |h.calls|
    && h.accepted == h.markedSent + h.lostAfterAccept + |Acknowledged(crew)|
  }

  ghost predicate RowInv(row: Row, h: History, crew: map<SenderId, Flight>) {
    && RowOk(row, h) && Balanced(h, crew)
    && CallsOk(row.attempts, h.calls, h.over)
    && LoadsOk(row.attempts, h.loads, h.over)
    && CrewOk(row.attempts, h.calls, h.over, crew)
  }

  ghost predicate Inv(w: World) {
    && |w.rows| == |w.histories|
    && (forall who :: who in w.flights ==> w.flights[who].row < |w.rows|)
    && (forall id :: 0 <= id < |w.rows| ==> RowInv(w.rows[id], w.histories[id], Crew(w.flights, id)))
  }

  // ----- the steps on one row -----

  lemma CountUsed(attempts: nat, loads: map<SenderId, nat>, over: map<nat, SenderId>, who: SenderId)
    requires LoadsOk(attempts, loads, over)
    ensures LoadsOk(attempts + 1, loads - {who}, over)
  {
  }

  lemma OutdatedCountUsed(attempts: nat, loads: map<SenderId, nat>, over: map<nat, SenderId>, who: SenderId)
    requires LoadsOk(attempts, loads, over) && attempts >= MAX_SEND_ATTEMPTS
    requires who in loads && loads[who] < MAX_SEND_ATTEMPTS
    ensures LoadsOk(attempts + 1, loads - {who}, over[attempts + 1 := who])
    ensures |over[attempts + 1 := who]| == |over| + 1
  {
    assert attempts + 1 !in over;
    assert forall a :: a in over ==> over[a] != who;
  }

  lemma ClaimedLoadsOk(row: Row, h: History, who: SenderId)
    requires LoadsOk(row.attempts, h.loads, h.over)
    ensures LoadsOk(row.attempts + 1, ClaimedHistory(row, h, who).loads, ClaimedHistory(row, h, who).over)
  {
    ClaimedLoads(row, h, who);
    if LetThrough(row, h, who) && row.attempts >= MAX_SEND_ATTEMPTS {
      PassedByAnOldCount(row, h, who);
      OutdatedCountUsed(row.attempts, h.loads, h.over, who);
    } else {
      CountUsed(row.attempts, h.loads, h.over, who);
    }
  }

  lemma PassedByAnOldCount(row: Row, h: History, who: SenderId)
    requires LetThrough(row, h, who) && row.attempts >= MAX_SEND_ATTEMPTS
    ensures who in h.loads && h.loads[who] < MAX_SEND_ATTEMPTS
  {
  }

  lemma ClaimedLoads(row: Row, h: History, who: SenderId)
    ensures ClaimedHistory(row, h, who).loads == h.loads - {who}
    ensures ClaimedHistory(row, h, who).over
         == if LetThrough(row, h, who) && row.attempts >= MAX_SEND_ATTEMPTS then h.over[row.attempts + 1 := who] else h.over
  {
  }

  lemma ClaimedOver(row: Row, h: History, who: SenderId)
    requires LoadsOk(row.attempts, h.loads, h.over)
    ensures |ClaimedHistory(row, h, who).over|
         == |h.over| + if LetThrough(row, h, who) && row.attempts >= MAX_SEND_ATTEMPTS then 1 else 0
  {
    if LetThrough(row, h, who) && row.attempts >= MAX_SEND_ATTEMPTS {
      OutdatedCountUsed(row.attempts, h.loads, h.over, who);
    }
  }

  lemma ClaimIsNumbered(row: Row, h: History, who: SenderId)
    ensures forall a :: a in h.over ==> a in ClaimedHistory(row, h, who).over
    ensures LetThrough(row, h, who) ==> Numbered(ClaimedHistory(row, h, who).over, row.attempts + 1)
  {
  }

  lemma ClaimedCallsOk(row: Row, h: History, crew: map<SenderId, Flight>, who: SenderId)
    requires CallsOk(row.attempts, h.calls, h.over) && CrewOk(row.attempts, h.calls, h.over, crew)
    requires forall a :: a in h.over ==> a in ClaimedHistory(row, h, who).over
    ensures var h' := ClaimedHistory(row, h, who);
      CallsOk(row.attempts + 1, h'.calls, h'.over) && CrewOk(row.attempts + 1, h'.calls, h'.over, crew)
  {
  }

  lemma ClaimedRowOk(row: Row, h: History, who: SenderId, at: Time)
    requires RowOk(row, h) && Claimable(row, at) && LoadsOk(row.attempts, h.loads, h.over)
    ensures LetThrough(row, h, who) ==> RowOk(Leased(row, at, LEASE), ClaimedHistory(row, h, who))
    ensures RowOk(Marked(Leased(row, at, LEASE), Failed, None), ClaimedHistory(row, h, who))
    ensures RowOk(Marked(Leased(row, at, LEASE), Blocked24h, None), ClaimedHistory(row, h, who))
  {
    ClaimedOver(row, h, who);
  }

  lemma NewFlight(attempts: nat, calls: seq<nat>, over: map<nat, SenderId>, crew: map<SenderId, Flight>,
                  who: SenderId, f: Flight)
    requires CallsOk(attempts, calls, over) && CrewOk(attempts, calls, over, crew) && who !in crew
    requires f.attempt == attempts + 1 && f.phase.Calling? && Numbered(over, attempts + 1)
    ensures CrewOk(attempts + 1, calls, over, crew[who := f])
  {
    var crew' := crew[who := f];
    assert forall p :: p in crew' ==> p == who || (p in crew && crew'[p] == crew[p] && crew[p].attempt <= attempts);
  }

  lemma NothingReturned(h: History, crew: map<SenderId, Flight>, h': History, who: SenderId, f: Flight)
    requires Balanced(h, crew) && who !in crew && f.phase.Calling?
    requires h' == h.(loads := h'.loads, over := h'.over)
    ensures Balanced(h', crew[who := f])
  {
    assert Returned(crew[who := f]) == Returned(crew);
    assert Acknowledged(crew[who := f]) == Acknowledged(crew);
  }

  lemma RowClaimed(row: Row, h: History, crew: map<SenderId, Flight>, who: SenderId, at: Time, f: Flight)
    requires RowInv(row, h, crew) && Claimable(row, at) && who !in crew && LetThrough(row, h, who)
    requires f.attempt == row.attempts + 1 && f.phase.Calling?
    ensures RowInv(Leased(row, at, LEASE), ClaimedHistory(row, h, who), crew[who := f])
  {
    RowPartClaimed(row, h, crew, who, at);
    CrewPartClaimed(row, h, crew, who, f);
    Assembled(Leased(row, at, LEASE), ClaimedHistory(row, h, who), crew[who := f]);
  }

  lemma RowPartClaimed(row: Row, h: History, crew: map<SenderId, Flight>, who: SenderId, at: Time)
    requires RowInv(row, h, crew) && Claimable(row, at) && LetThrough(row, h, who)
    ensures RowOk(Leased(row, at, LEASE), ClaimedHistory(row, h, who))
    ensures var h' := ClaimedHistory(row, h, who); LoadsOk(row.attempts + 1, h'.loads, h'.over)
  {
    ClaimedRowOk(row, h, who, at);
    ClaimedLoadsOk(row, h, who);
  }

  lemma CrewPartClaimed(row: Row, h: History, crew: map<SenderId, Flight>, who: SenderId, f: Flight)
    requires RowInv(row, h, crew) && who !in crew && LetThrough(row, h, who)
    requires f.attempt == row.attempts + 1 && f.phase.Calling?
    ensures var h' := ClaimedHistory(row, h, who);
      && Balanced(h', crew[who := f])
      && CallsOk(row.attempts + 1, h'.calls, h'.over)
      && CrewOk(row.attempts + 1, h'.calls, h'.over, crew[who := f])
  {
    CrewClaimed(row, h, crew, who, f);
    NothingReturned(h, crew, ClaimedHistory(row, h, who), who, f);
  }

  lemma CrewClaimed(row: Row, h: History, crew: map<SenderId, Flight>, who: SenderId, f: Flight)
    requires CallsOk(row.attempts, h.calls, h.over) && CrewOk(row.attempts, h.calls, h.over, crew)
    requires who !in crew && LetThrough(row, h, who) && f.attempt == row.attempts + 1 && f.phase.Calling?
    ensures var h' := ClaimedHistory(row, h, who);
      && CallsOk(row.attempts + 1, h'.calls, h'.over)
      && CrewOk(row.attempts + 1, h'.calls, h'.over, crew[who := f])
  {
    var h' := ClaimedHistory(row, h, who);
    ClaimIsNumbered(row, h, who);
    ClaimedCallsOk(row, h, crew, who);
    StillNumbered(row.attempts, h.calls, h.over, h'.over, crew);
    NewFlight(row.attempts, h.calls, h'.over, crew, who, f);
  }

  lemma Assembled(row: Row, h: History, crew: map<SenderId, Flight>)
    requires RowOk(row, h) && Balanced(h, crew) && CallsOk(row.attempts, h.calls, h.over)
    requires LoadsOk(row.attempts, h.loads, h.over) && CrewOk(row.attempts, h.calls, h.over, crew)
    ensures RowInv(row, h, crew)
  {
  }

  lemma StillNumbered(attempts: nat, calls: seq<nat>, over: map<nat, SenderId>, over': map<nat, SenderId>,
                      crew: map<SenderId, Flight>)
    requires CallsOk(attempts, calls, over) && CrewOk(attempts, calls, over, crew)
    requires forall a :: a in over ==> a in over'
    ensures CallsOk(attempts, calls, over') && CrewOk(attempts, calls, over', crew)
  {
  }

  lemma RowClosed(row: Row, h: History, crew: map<SenderId, Flight>, who: SenderId, at: Time, status: Status)
    requires RowInv(row, h, crew) && Claimable(row, at) && status in {Failed, Blocked24h}
    ensures RowInv(Marked(Leased(row, at, LEASE), status, None), ClaimedHistory(row, h, who), crew)
  {
    ClaimedRowOk(row, h, who, at);
    ClaimedLoadsOk(row, h, who);
    ClaimIsNumbered(row, h, who);
    ClaimedCallsOk(row, h, crew, who);
  }

  lemma LoadsKeepRow(row: Row, h: History, crew: map<SenderId, Flight>, who: SenderId)
    requires RowInv(row, h, crew)
    ensures RowInv(row, Loaded(row, h, who), crew) && RowInv(row, Used(h, who), crew)
  {
  }

  function CalledHistory(h: History, f: Flight, reply: ProviderReply): History {
    h.(calls := h.calls + [f.attempt], accepted := h.accepted + if reply.Accepted? then 1 else 0)
  }

  lemma AttemptSpent(attempts: nat, calls: seq<nat>, over: map<nat, SenderId>, crew: map<SenderId, Flight>,
                     who: SenderId, reply: ProviderReply)
    requires CallsOk(attempts, calls, over) && CrewOk(attempts, calls, over, crew)
    requires who in crew && crew[who].phase.Calling?
    ensures CallsOk(attempts, calls + [crew[who].attempt], over)
    ensures CrewOk(attempts, calls + [crew[who].attempt], over, crew[who := crew[who].(phase := Called(reply))])
  {
    var calls' := calls + [crew[who].attempt];
    var crew' := crew[who := crew[who].(phase := Called(reply))];
    assert forall a :: a in calls' <==> a in calls || a == crew[who].attempt;
    assert forall p :: p in crew' ==> p in crew && crew'[p].attempt == crew[p].attempt;
  }

  lemma RowCalled(row: Row, h: History, crew: map<SenderId, Flight>, who: SenderId, reply: ProviderReply)
    requires RowInv(row, h, crew) && who in crew && crew[who].phase.Calling?
    ensures RowInv(row, CalledHistory(h, crew[who], reply), crew[who := crew[who].(phase := Called(reply))])
  {
    AttemptSpent(row.attempts, h.calls, h.over, crew, who, reply);
    ReturnedAfterCall(crew, who, reply);
  }

  lemma ReturnedAfterCall(crew: map<SenderId, Flight>, who: SenderId, reply: ProviderReply)
    requires who in crew && crew[who].phase.Calling?
    ensures var crew' := crew[who := crew[who].(phase := Called(reply))];
            && |Returned(crew')| == |Returned(crew)| + 1
            && |Acknowledged(crew')| == |Acknowledged(crew)| + if reply.Accepted? then 1 else 0
  {
    var crew' := crew[who := crew[who].(phase := Called(reply))];
    assert Returned(crew') == Returned(crew) + {who};
    if reply.Accepted? {
      assert Acknowledged(crew') == Acknowledged(crew) + {who};
    } else {
      assert Acknowledged(crew') == Acknowledged(crew);
    }
  }

  function MarkedHistory(h: History, reply: ProviderReply): History {
    if reply.Accepted? then h.(markedSent := h.markedSent + 1) else h.(markedPending := h.markedPending + 1)
  }

  function MarkedRow(row: Row, reply: ProviderReply): Row {
    match reply
    case Accepted(wamid) => Marked(row, Sent, wamid)
    case Refused => Marked(row, Pending, None)
  }

  lemma MarkedRowOk(row: Row, h: History, reply: ProviderReply)
    requires RowOk(row, h)
    ensures RowOk(MarkedRow(row, reply), MarkedHistory(h, reply))
    ensures MarkedRow(row, reply).attempts == row.attempts
  {
  }

  lemma MarkedBalanced(h: History, crew: map<SenderId, Flight>, who: SenderId)
    requires Balanced(h, crew) && who in crew && crew[who].phase.Called?
    ensures Balanced(MarkedHistory(h, crew[who].phase.reply), crew - {who})
  {
    assert Returned(crew - {who}) == Returned(crew) - {who};
    assert Acknowledged(crew - {who}) == Acknowledged(crew) - {who};
  }

  lemma RowMarked(row: Row, h: History, crew: map<SenderId, Flight>, who: SenderId)
    requires RowInv(row, h, crew) && who in crew && crew[who].phase.Called?
    ensures RowInv(MarkedRow(row, crew[who].phase.reply), MarkedHistory(h, crew[who].phase.reply), crew - {who})
  {
    var reply := crew[who].phase.reply;
    MarkedRowOk(row, h, reply);
    MarkedBalanced(h, crew, who);
    Fewer(row.attempts, h.calls, h.over, crew, who);
    Assembled(MarkedRow(row, reply), MarkedHistory(h, reply), crew - {who});
  }

  lemma Fewer(attempts: nat, calls: seq<nat>, over: map<nat, SenderId>, crew: map<SenderId, Flight>, who: SenderId)
    requires CrewOk(attempts, calls, over, crew)
    ensures CrewOk(attempts, calls, over, crew - {who})
    ensures Returned(crew - {who}) == Returned(crew) - {who}
    ensures Acknowledged(crew - {who}) == Acknowledged(crew) - {who}
  {
  }

  function CrashedHistory(h: History, f: Flight): History {
    if f.phase.Called? && f.phase.reply.Accepted? then h.(lostAfterAccept := h.lostAfterAccept + 1) else h
  }

  lemma CrashedBalanced(h: History, crew: map<SenderId, Flight>, who: SenderId)
    requires Balanced(h, crew) && who in crew
    ensures Balanced(CrashedHistory(h, crew[who]), crew - {who})
  {
    assert Returned(crew - {who}) == Returned(crew) - {who};
    assert Acknowledged(crew - {who}) == Acknowledged(crew) - {who};
  }

  lemma RowCrashed(row: Row, h: History, crew: map<SenderId, Flight>, who: SenderId)
    requires RowInv(row, h, crew) && who in crew
    ensures RowInv(row, CrashedHistory(h, crew[who]), crew - {who})
  {
    CrashedBalanced(h, crew, who);
    Fewer(row.attempts, h.calls, h.over, crew, who);
    Assembled(row, CrashedHistory(h, crew[who]), crew - {who});
  }

  // ----- and on the table -----

  lemma CrewFrame(flights: map<SenderId, Flight>, who: SenderId, f: Flight, id: RowId)
    requires who in flights ==> flights[who].row == f.row
    ensures Crew(flights[who := f], id) == if id == f.row then Crew(flights, id)[who := f] else Crew(flights, id)
    ensures Crew(flights - {who}, id) == Crew(flights, id) - {who}
    ensures id != f.row ==> who !in Crew(flights, id) && Crew(flights - {who}, id) == Crew(flights, id)
  {
  }

  /** The invariant speaks of rows, histories and senders only. */
  lemma SameProtocol(w: World, w': World)
    requires Inv(w) && w'.rows == w.rows && w'.histories == w.histories && w'.flights == w.flights
    ensures Inv(w')
  {
  }

  /** One row and its history change, nobody comes or goes. */
  lemma ClosedKeepsInv(w: World, w': World, id: RowId, row': Row, h': History)
    requires Inv(w) && id < |w.rows|
    requires RowInv(row', h', Crew(w.flights, id))
    requires w'.rows == w.rows[id := row'] && w'.histories == w.histories[id := h'] && w'.flights == w.flights
    ensures Inv(w')
  {
  }

  lemma SentOffKeepsInv(w: World, w': World, who: SenderId, row': Row, h': History, f: Flight)
    requires Inv(w) && f.row < |w.rows| && who !in w.flights
    requires RowInv(row', h', Crew(w.flights, f.row)[who := f])
    requires w'.rows == w.rows[f.row := row'] && w'.histories == w.histories[f.row := h']
    requires w'.flights == w.flights[who := f]
    ensures Inv(w')
  {
    forall i { CrewFrame(w.flights, who, f, i); }
    RowReplaced(w, w', f.row, row', h', Crew(w.flights, f.row)[who := f]);
  }

  /** One row changes with its history and its crew, and elsewhere in the table nothing does. */
  lemma RowReplaced(w: World, w': World, id: RowId, row': Row, h': History, crew': map<SenderId, Flight>)
    requires Inv(w) && id < |w.rows| && RowInv(row', h', crew')
    requires w'.rows == w.rows[id := row'] && w'.histories == w.histories[id := h'] && Crew(w'.flights, id) == crew'
    requires forall i :: i != id ==> Crew(w'.flights, i) == Crew(w.flights, i)
    requires forall who :: who in w'.flights ==> w'.flights[who].row < |w.rows|
    ensures Inv(w')
  {
  }

  predicate Skipped(w: World, who: SenderId, id: RowId, at: Time, gateAt: Time) {
    who in w.flights || !(w.clock <= at <= gateAt) || id >= |w.rows| || id >= |w.histories| || !Claimable(w.rows[id], at)
  }

  /** The four things the claim transaction can do: nothing, send off, close as failed, park as blocked. */
  lemma ClaimShape(w: World, who: SenderId, id: RowId, at: Time, gateAt: Time)
    ensures var w' := ClaimStep(w, who, id, at, gateAt);
            && (Skipped(w, who, id, at, gateAt) ==>
                  && w'.rows == w.rows && w'.flights == w.flights
                  && (w'.histories == w.histories
                      || (id < |w.histories| && w'.histories == w.histories[id := Used(w.histories[id], who)])))
            && (!Skipped(w, who, id, at, gateAt) ==>
                  var was, h := w.rows[id], w.histories[id];
                  var leased := Leased(was, at, LEASE);
                  && w'.clock == gateAt && w'.histories == w.histories[id := ClaimedHistory(was, h, who)]
                  && ( || (LetThrough(was, h, who) && w'.rows == w.rows[id := leased]
                           && w'.flights == w.flights[who := Flight(id, leased.attempts, at + LEASE, Calling)])
                       || (w'.rows == w.rows[id := Marked(leased, Failed, None)] && w'.flights == w.flights)
                       || (LetThrough(was, h, who)
                           && w'.rows == w.rows[id := Marked(leased, Blocked24h, None)] && w'.flights == w.flights)))
  {
  }

  lemma ClaimKeepsInv(w: World, who: SenderId, id: RowId, at: Time, gateAt: Time)
    requires Inv(w)
    ensures Inv(ClaimStep(w, who, id, at, gateAt))
  {
    var w' := ClaimStep(w, who, id, at, gateAt);
    ClaimShape(w, who, id, at, gateAt);
    if Skipped(w, who, id, at, gateAt) {
      if w'.histories == w.histories {
        SameProtocol(w, w');
      } else {
        LoadsKeepRow(w.rows[id], w.histories[id], Crew(w.flights, id), who);
        ClosedKeepsInv(w, w', id, w.rows[id], Used(w.histories[id], who));
      }
    } else {
      WonClaimKeepsInv(w, w', who, id, at);
    }
  }

  lemma WonClaimKeepsInv(w: World, w': World, who: SenderId, id: RowId, at: Time)
    requires Inv(w) && id < |w.rows| && Claimable(w.rows[id], at) && who !in w.flights
    requires w'.histories == w.histories[id := ClaimedHistory(w.rows[id], w.histories[id], who)]
    requires var leased := Leased(w.rows[id], at, LEASE);
      || (LetThrough(w.rows[id], w.histories[id], who) && w'.rows == w.rows[id := leased]
          && w'.flights == w.flights[who := Flight(id, leased.attempts, at + LEASE, Calling)])
      || (w'.rows == w.rows[id := Marked(leased, Failed, None)] && w'.flights == w.flights)
      || (w'.rows == w.rows[id := Marked(leased, Blocked24h, None)] && w'.flights == w.flights)
    ensures Inv(w')
  {
    var row, h, crew := w.rows[id], w.histories[id], Crew(w.flights, id);
    var leased := Leased(row, at, LEASE);
    var h' := ClaimedHistory(row, h, who);
    if w'.flights != w.flights {
      var f := Flight(id, row.attempts + 1, at + LEASE, Calling);
      RowClaimed(row, h, crew, who, at, f);
      SentOffKeepsInv(w, w', who, leased, h', f);
    } else if w'.rows == w.rows[id := Marked(leased, Failed, None)] {
      RowClosed(row, h, crew, who, at, Failed);
      ClosedKeepsInv(w, w', id, Marked(leased, Failed, None), h');
    } else {
      RowClosed(row, h, crew, who, at, Blocked24h);
      ClosedKeepsInv(w, w', id, Marked(leased, Blocked24h, None), h');
    }
  }

  lemma FetchKeepsInv(w: World, who: SenderId, limit: nat, at: Time)
    requires Inv(w)
    ensures Inv(FetchStep(w, who, limit, at))
  {
    forall id | 0 <= id < |w.rows|
      ensures RowInv(w.rows[id], FetchStep(w, who, limit, at).histories[id], Crew(w.flights, id))
    {
      LoadsKeepRow(w.rows[id], w.histories[id], Crew(w.flights, id), who);
      FetchedRow(w, who, limit, at, id);
    }
    FetchFrame(w, who, limit, at);
    HistoriesOnly(w, FetchStep(w, who, limit, at));
  }

  lemma FetchedRow(w: World, who: SenderId, limit: nat, at: Time, id: RowId)
    requires |w.histories| == |w.rows| && id < |w.rows|
    ensures FetchStep(w, who, limit, at).histories[id] in {w.histories[id], Loaded(w.rows[id], w.histories[id], who)}
  {
  }

  lemma FetchFrame(w: World, who: SenderId, limit: nat, at: Time)
    ensures var w' := FetchStep(w, who, limit, at);
            w'.rows == w.rows && w'.flights == w.flights && |w'.histories| == |w.histories|
  {
  }

  lemma HistoriesOnly(w: World, w': World)
    requires Inv(w) && w'.rows == w.rows && w'.flights == w.flights && |w'.histories| == |w.histories|
    requires forall id :: 0 <= id < |w.rows| ==> RowInv(w.rows[id], w'.histories[id], Crew(w.flights, id))
    ensures Inv(w')
  {
  }

  /** A sender at work on a row is one of the row's crew. */
  lemma AtWork(w: World, who: SenderId)
    requires Inv(w) && who in w.flights
    ensures var f := w.flights[who];
            && f.row < |w.rows| == |w.histories|
            && who in Crew(w.flights, f.row) && Crew(w.flights, f.row)[who] == f
            && RowInv(w.rows[f.row], w.histories[f.row], Crew(w.flights, f.row))
  {
  }

  /** What a sender's step leaves of the table when it changes its own row only, and stays or goes. */
  lemma CallShape(w: World, who: SenderId, reply: ProviderReply)
    requires who in w.flights && w.flights[who].phase.Calling? && w.flights[who].row < |w.rows| == |w.histories|
    ensures var w', f := CallStep(w, who, reply), w.flights[who];
      && w'.rows == w.rows[f.row := w.rows[f.row]]
      && w'.histories == w.histories[f.row := CalledHistory(w.histories[f.row], f, reply)]
      && w'.flights == w.flights[who := f.(phase := Called(reply))]
      && Crew(w'.flights, f.row) == Crew(w.flights, f.row)[who := f.(phase := Called(reply))]
      && (forall i :: i != f.row ==> Crew(w'.flights, i) == Crew(w.flights, i))
  {
    var f := w.flights[who];
    forall i { CrewFrame(w.flights, who, f.(phase := Called(reply)), i); }
  }

  lemma CallKeepsInv(w: World, who: SenderId, reply: ProviderReply)
    requires Inv(w)
    ensures Inv(CallStep(w, who, reply))
  {
    if who in w.flights && w.flights[who].phase.Calling? {
      AtWork(w, who);
      var f := w.flights[who];
      var row, h, crew := w.rows[f.row], w.histories[f.row], Crew(w.flights, f.row);
      RowCalled(row, h, crew, who, reply);
      CallReplaces(w, who, reply);
    }
  }

  lemma CallReplaces(w: World, who: SenderId, reply: ProviderReply)
    requires Inv(w) && who in w.flights && w.flights[who].phase.Calling?
    requires w.flights[who].row < |w.rows| == |w.histories|
    requires var f := w.flights[who];
      RowInv(w.rows[f.row], CalledHistory(w.histories[f.row], f, reply),
             Crew(w.flights, f.row)[who := f.(phase := Called(reply))])
    ensures Inv(CallStep(w, who, reply))
  {
    var f := w.flights[who];
    CallShape(w, who, reply);
    RowReplaced(w, CallStep(w, who, reply), f.row, w.rows[f.row], CalledHistory(w.histories[f.row], f, reply),
                Crew(w.flights, f.row)[who := f.(phase := Called(reply))]);
  }

  lemma MarkShape(w: World, who: SenderId)
    requires who in w.flights && w.flights[who].phase.Called? && w.flights[who].row < |w.rows| == |w.histories|
    ensures var w', f := MarkStep(w, who), w.flights[who];
      && w'.rows == w.rows[f.row := MarkedRow(w.rows[f.row], f.phase.reply)]
      && w'.histories == w.histories[f.row := MarkedHistory(w.histories[f.row], f.phase.reply)]
      && w'.flights == w.flights - {who} && Crew(w'.flights, f.row) == Crew(w.flights, f.row) - {who}
      && (forall i :: i != f.row ==> Crew(w'.flights, i) == Crew(w.flights, i))
  {
    forall i { CrewFrame(w.flights, who, w.flights[who], i); }
  }

  lemma MarkKeepsInv(w: World, who: SenderId)
    requires Inv(w)
    ensures Inv(MarkStep(w, who))
  {
    if who in w.flights && w.flights[who].phase.Called? {
      AtWork(w, who);
      var f := w.flights[who];
      var row, h, crew := w.rows[f.row], w.histories[f.row], Crew(w.flights, f.row);
      RowMarked(row, h, crew, who);
      MarkReplaces(w, who);
    }
  }

  lemma MarkReplaces(w: World, who: SenderId)
    requires Inv(w) && who in w.flights && w.flights[who].phase.Called?
    requires w.flights[who].row < |w.rows| == |w.histories|
    requires var f := w.flights[who];
      RowInv(MarkedRow(w.rows[f.row], f.phase.reply), MarkedHistory(w.histories[f.row], f.phase.reply),
             Crew(w.flights, f.row) - {who})
    ensures Inv(MarkStep(w, who))
  {
    var f := w.flights[who];
    MarkShape(w, who);
    RowReplaced(w, MarkStep(w, who), f.row, MarkedRow(w.rows[f.row], f.phase.reply),
                MarkedHistory(w.histories[f.row], f.phase.reply), Crew(w.flights, f.row) - {who});
  }

  lemma CrashShape(w: World, who: SenderId)
    requires who in w.flights && w.flights[who].row < |w.rows| == |w.histories|
    ensures var w', f := CrashStep(w, who), w.flights[who];
      && w'.rows == w.rows[f.row := w.rows[f.row]]
      && w'.histories == w.histories[f.row := CrashedHistory(w.histories[f.row], f)]
      && w'.flights == w.flights - {who} && Crew(w'.flights, f.row) == Crew(w.flights, f.row) - {who}
      && (forall i :: i != f.row ==> Crew(w'.flights, i) == Crew(w.flights, i))
  {
    forall i { CrewFrame(w.flights, who, w.flights[who], i); }
  }

  lemma CrashKeepsInv(w: World, who: SenderId)
    requires Inv(w)
    ensures Inv(CrashStep(w, who))
  {
    if who in w.flights {
      AtWork(w, who);
      var f := w.flights[who];
      var row, h, crew := w.rows[f.row], w.histories[f.row], Crew(w.flights, f.row);
      RowCrashed(row, h, crew, who);
      CrashReplaces(w, who);
    }
  }

  lemma CrashReplaces(w: World, who: SenderId)
    requires Inv(w) && who in w.flights && w.flights[who].row < |w.rows| == |w.histories|
    requires var f := w.flights[who];
      RowInv(w.rows[f.row], CrashedHistory(w.histories[f.row], f), Crew(w.flights, f.row) - {who})
    ensures Inv(CrashStep(w, who))
  {
    var f := w.flights[who];
    CrashShape(w, who);
    RowReplaced(w, CrashStep(w, who), f.row, w.rows[f.row], CrashedHistory(w.histories[f.row], f),
                Crew(w.flights, f.row) - {who});
  }

  lemma StoreKeepsInv(w: World, draft: Reply)
    requires Inv(w)
    ensures Inv(Step(w, Store(draft)))
  {
    if !HasKey(w.rows, draft.key) {
      assert Crew(w.flights, |w.rows|) == map[];
      NewRowInv(draft);
      var rows, histories := w.rows + [NewRow(draft)], w.histories + [BLANK];
      forall id | 0 <= id < |rows| ensures RowInv(rows[id], histories[id], Crew(w.flights, id)) {
        RowAdded(w, draft, id);
      }
      Grown(Step(w, Store(draft)), rows, histories);
    }
  }

  lemma Grown(w: World, rows: seq<Row>, histories: seq<History>)
    requires w.rows == rows && w.histories == histories && |rows| == |histories|
    requires forall who :: who in w.flights ==> w.flights[who].row < |rows|
    requires forall id :: 0 <= id < |rows| ==> RowInv(rows[id], histories[id], Crew(w.flights, id))
    ensures Inv(w)
  {
  }

  lemma RowAdded(w: World, draft: Reply, id: RowId)
    requires Inv(w) && Crew(w.flights, |w.rows|) == map[] && RowInv(NewRow(draft), BLANK, map[]) && id <= |w.rows|
    ensures RowInv((w.rows + [NewRow(draft)])[id], (w.histories + [BLANK])[id], Crew(w.flights, id))
  {
    if id < |w.rows| {
      assert (w.rows + [NewRow(draft)])[id] == w.rows[id] && (w.histories + [BLANK])[id] == w.histories[id];
    }
  }

  lemma NewRowInv(draft: Reply)
    ensures RowInv(NewRow(draft), BLANK, map[])
  {
  }

  lemma StepKeepsInv(w: World, e: Event)
    requires Inv(w)
    ensures Inv(Step(w, e))
  {
    match e
    case Tick(_) => SameProtocol(w, Step(w, e));
    case Elsewhere(_, _, _) => SameProtocol(w, Step(w, e));
    case Store(draft) => StoreKeepsInv(w, draft);
    case Fetch(who, limit, at) => FetchKeepsInv(w, who, limit, at);
    case Claim(who, id, at, gateAt) => ClaimKeepsInv(w, who, id, at, gateAt);
    case CallProvider(who, reply) => CallKeepsInv(w, who, reply);
    case Mark(who) => MarkKeepsInv(w, who);
    case Crash(who) => CrashKeepsInv(w, who);
  }

  lemma RunKeepsInv(w: World, es: seq<Event>)
    requires Inv(w)
    ensures Inv(Run(Step, w, es))
  {
    forall t, e | Inv(t) ensures Inv(Step(t, e)) { StepKeepsInv(t, e); }
    AnythingAllowed(Step, w, es);
    Invariance(Step, Any, Inv, w, es);
  }

  // ----- what a run can do to one row, however the senders behave -----

  /** Attempt numbers, no number used twice, each within the limit or one of those let through. */
  lemma {:induction false} CallsCounted(calls: seq<nat>, over: set<nat>)
    requires Attempts.Distinct(calls)
    requires forall a :: a in calls ==> 1 <= a && (a <= MAX_SEND_ATTEMPTS || a in over)
    ensures |calls| <= MAX_SEND_ATTEMPTS + |over|
    decreases |over|
  {
    if over == {} {
      Attempts.DistinctBounded(calls, MAX_SEND_ATTEMPTS);
    } else {
      var a :| a in over;
      CallsCounted(Attempts.Without(calls, a), over - {a});
    }
  }

  /** Attempts made by different senders, all of them among `who`. */
  lemma {:induction false} SendersCounted(over: map<nat, SenderId>, who: set<SenderId>)
    requires forall a, b :: a in over && b in over && a != b ==> over[a] != over[b]
    requires over.Values <= who
    ensures |over| <= |who|
    decreases |over|
  {
    if a :| a in over {
      var rest := over - {a};
      assert rest.Values <= who - {over[a]};
      SendersCounted(rest, who - {over[a]});
    }
  }

  /** The sessions that swept. */
  function Sweepers(es: seq<Event>): set<SenderId> {
    set e | e in es && e.Fetch? :: e.who
  }

  lemma SweepersSnoc(es: seq<Event>, e: Event)
    ensures Sweepers(es + [e]) == Sweepers(es) + if e.Fetch? then {e.who} else {}
  {
    assert forall x :: x in es + [e] <==> x in es || x == e;
    forall who | who in Sweepers(es) ensures who in Sweepers(es + [e]) {
      var x :| x in es && x.Fetch? && x.who == who;
      assert x in es + [e];
    }
    if e.Fetch? { assert e in es + [e]; }
  }

  ghost predicate LoadedBy(w: World, who: set<SenderId>) {
    forall id :: 0 <= id < |w.histories| ==> w.histories[id].loads.Keys + w.histories[id].over.Values <= who
  }

  lemma StepLoads(w: World, e: Event, who: set<SenderId>)
    requires LoadedBy(w, who)
    ensures LoadedBy(Step(w, e), who + if e.Fetch? then {e.who} else {})
  {
    if e.Claim? {
      ClaimShape(w, e.who, e.id, e.at, e.gateAt);
    } else if e.CallProvider? || e.Mark? || e.Crash? {
      SenderStepsKeepLoads(w, e);
    }
  }

  lemma SenderStepsKeepLoads(w: World, e: Event)
    requires e.CallProvider? || e.Mark? || e.Crash?
    ensures var w' := Step(w, e);
      && |w'.histories| == |w.histories|
      && forall id :: 0 <= id < |w.histories| ==>
           w'.histories[id].loads == w.histories[id].loads && w'.histories[id].over == w.histories[id].over
  {
  }

  lemma {:induction false} OnlySweepersLoad(w: World, es: seq<Event>)
    requires Initial(w)
    ensures LoadedBy(Run(Step, w, es), Sweepers(es))
    decreases |es|
  {
    if es != [] {
      var before, e := es[..|es| - 1], es[|es| - 1];
      OnlySweepersLoad(w, before);
      StepLoads(Run(Step, w, before), e, Sweepers(before));
      SweepersSnoc(before, e);
      assert before + [e] == es;
    }
  }

  /**
   In every run - any number of senders and sweeps, crashes anywhere, leases run out, late marks - the
   provider is called for a row under attempt numbers of their own, at most MAX_SEND_ATTEMPTS times and
   once more for each sender that an outdated count let through; those are sweeping sessions, one call each.
   */
  lemma CallsAreBounded(w: World, es: seq<Event>, id: RowId)
    requires Initial(w)
    ensures var w' := Run(Step, w, es);
            |w'.rows| == |w'.histories| &&
            (id < |w'.rows| ==>
               var h := w'.histories[id];
               && Attempts.Distinct(h.calls)
               && |h.calls| <= MAX_SEND_ATTEMPTS + |h.over|
               && h.over.Values <= Sweepers(es) && |h.calls| <= MAX_SEND_ATTEMPTS + |Sweepers(es)|
               && w'.rows[id].attempts <= 2 * (MAX_SEND_ATTEMPTS + |h.over|) + 1)
  {
    RunKeepsInv(w, es);
    var w' := Run(Step, w, es);
    if id < |w'.rows| {
      var h := w'.histories[id];
      assert RowInv(w'.rows[id], h, Crew(w'.flights, id));
      CallsCounted(h.calls, h.over.Keys);
      OnlySweepersLoad(w, es);
      SendersCounted(h.over, Sweepers(es));
    }
  }

  /** No claim of the row came between the sweep's query and the sweep's own claim. */
  predicate UpToDate(w: World, e: Event) {
    e.Claim? && e.id < |w.rows| && e.id < |w.histories| && e.who in w.histories[e.id].loads ==>
      w.histories[e.id].loads[e.who] == w.rows[e.id].attempts
  }

  ghost predicate NobodyOver(w: World) {
    forall id :: 0 <= id < |w.histories| ==> w.histories[id].over == map[]
  }

  lemma StepLetsNobodyOver(w: World, e: Event)
    requires NobodyOver(w) && UpToDate(w, e)
    ensures NobodyOver(Step(w, e))
  {
    var w' := Step(w, e);
    if e.Claim? {
      ClaimShape(w, e.who, e.id, e.at, e.gateAt);
    } else if e.CallProvider? || e.Mark? || e.Crash? {
      assert forall id :: 0 <= id < |w.histories| ==> w'.histories[id].over == w.histories[id].over;
    }
  }

  lemma NobodyEverOver(w: World, es: seq<Event>)
    requires Initial(w) && Allowed(Step, UpToDate, w, es)
    ensures NobodyOver(Run(Step, w, es))
  {
    forall t, e | NobodyOver(t) && UpToDate(t, e) ensures NobodyOver(Step(t, e)) { StepLetsNobodyOver(t, e); }
    Invariance(Step, UpToDate, NobodyOver, w, es);
  }

  /** Then the limit holds as it is written: at most MAX_SEND_ATTEMPTS calls, and 11 claims in all. */
  lemma CallsKeepTheLimit(w: World, es: seq<Event>, id: RowId)
    requires Initial(w) && Allowed(Step, UpToDate, w, es)
    ensures var w' := Run(Step, w, es);
            |w'.rows| == |w'.histories| &&
            (id < |w'.rows| ==>
               && |w'.histories[id].calls| <= MAX_SEND_ATTEMPTS
               && w'.rows[id].attempts <= 2 * MAX_SEND_ATTEMPTS + 1)
  {
    CallsAreBounded(w, es, id);
    NobodyEverOver(w, es);
  }

  /**
   The exact step at which a sender gets past the check although the row's attempts are used up: a claim
   it wins, with a count its own sweep loaded below the limit, of a row that has reached the limit since.
   */
  lemma LimitIsPassedExactlyByAnOutdatedCount(w: World, e: Event, id: RowId)
    requires Inv(w) && id < |w.rows|
    ensures id < |Step(w, e).histories|
    ensures Step(w, e).histories[id].over != w.histories[id].over <==>
      && e.Claim? && e.id == id && !Skipped(w, e.who, id, e.at, e.gateAt)
      && e.who in w.histories[id].loads
      && w.histories[id].loads[e.who] < MAX_SEND_ATTEMPTS <= w.rows[id].attempts
  {
    if e.Claim? {
      LoadsOfRow(w, id);
      OverGrowsExactly(w.rows[id], w.histories[id], e.who);
      OverAfterClaim(w, e.who, e.id, e.at, e.gateAt, id);
    } else {
      OnlyClaimsPass(w, e, id);
    }
  }

  lemma LoadsOfRow(w: World, id: RowId)
    requires Inv(w) && id < |w.rows|
    ensures |w.histories| == |w.rows| && LoadsOk(w.rows[id].attempts, w.histories[id].loads, w.histories[id].over)
  {
    assert RowInv(w.rows[id], w.histories[id], Crew(w.flights, id));
  }

  lemma OverAfterClaim(w: World, who: SenderId, other: RowId, at: Time, gateAt: Time, id: RowId)
    requires id < |w.rows| == |w.histories|
    ensures var w' := ClaimStep(w, who, other, at, gateAt);
      && id < |w'.histories|
      && w'.histories[id].over == if other == id && !Skipped(w, who, id, at, gateAt)
                                  then ClaimedHistory(w.rows[id], w.histories[id], who).over
                                  else w.histories[id].over
  {
    ClaimShape(w, who, other, at, gateAt);
  }

  lemma OverGrowsExactly(row: Row, h: History, who: SenderId)
    requires LoadsOk(row.attempts, h.loads, h.over)
    ensures ClaimedHistory(row, h, who).over != h.over <==>
      who in h.loads && h.loads[who] < MAX_SEND_ATTEMPTS <= row.attempts
  {
    assert row.attempts + 1 !in h.over;
    assert row.attempts + 1 in h.over[row.attempts + 1 := who];
  }

  lemma OnlyClaimsPass(w: World, e: Event, id: RowId)
    requires |w.rows| == |w.histories| && id < |w.rows| && !e.Claim?
    ensures id < |Step(w, e).histories| && Step(w, e).histories[id].over == w.histories[id].over
  {
  }

  /** Acceptances are conserved: each was marked sent, lost in a crash, or is about to be marked. */
  lemma AcceptancesAreConserved(w: World, es: seq<Event>, id: RowId)
    requires Initial(w)
    ensures var w' := Run(Step, w, es);
            |w'.rows| == |w'.histories| &&
            (id < |w'.rows| ==>
               var h := w'.histories[id];
               h.accepted == h.markedSent + h.lostAfterAccept + |Acknowledged(Crew(w'.flights, id))|)
  {
    RunKeepsInv(w, es);
    var w' := Run(Step, w, es);
    if id < |w'.rows| {
      assert RowInv(w'.rows[id], w'.histories[id], Crew(w'.flights, id));
    }
  }

  /** No row is ever stuck: in every run a row can be claimed unless it is finished or its lease runs. */
  lemma NothingStuck(w: World, es: seq<Event>, id: RowId, now: Time)
    requires Initial(w)
    ensures var w' := Run(Step, w, es);
            id < |w'.rows| ==>
              var row := w'.rows[id];
              Claimable(row, now) <==> !Terminal(row) && (row.lockedUntil.None? || row.lockedUntil.value < now)
  {
    RunKeepsInv(w, es);
    var w' := Run(Step, w, es);
    if id < |w'.rows| {
      assert RowInv(w'.rows[id], w'.histories[id], Crew(w'.flights, id));
    }
  }

  /**
   A sent row can be taken back, and this is exactly when: a sender whose own call was refused
   marks it.  The mark does not look at who owns the lease.
   */
  lemma SentIsLeftExactlyByARefusedMark(w: World, e: Event, id: RowId)
    requires |w.rows| == |w.histories| && id < |w.rows| && w.rows[id].status == Sent
    ensures |Step(w, e).rows| >= |w.rows|
    ensures Step(w, e).rows[id].status != Sent <==>
              && e.Mark? && e.who in w.flights
              && w.flights[e.who].row == id
              && w.flights[e.who].phase == Called(Refused)
  {
    if e.Claim? {
      ClaimSparesSent(w, e.who, e.id, e.at, e.gateAt, id);
    } else if e.Mark? {
    } else {
      OthersSpareRows(w, e);
    }
  }

  lemma ClaimSparesSent(w: World, who: SenderId, other: RowId, at: Time, gateAt: Time, id: RowId)
    requires id < |w.rows| && w.rows[id].status == Sent
    ensures var w' := ClaimStep(w, who, other, at, gateAt); |w'.rows| == |w.rows| && w'.rows[id] == w.rows[id]
  {
    ClaimShape(w, who, other, at, gateAt);
  }

  lemma OthersSpareRows(w: World, e: Event)
    requires !e.Claim? && !e.Mark?
    ensures |w.rows| <= |Step(w, e).rows| && Step(w, e).rows[..|w.rows|] == w.rows
  {
  }

  function Waiting(): Row { NewRow(Reply(StatusKey("m"), 0, None, "status_query", [], None)) }

  /** A sender that is refused, and has not come back to mark it. */
  function Refusing(): World {
    World(0, 24 * HOUR, [Leased(Waiting(), 0, LEASE)], map[], [], map[],
          map[1 := Flight(0, 1, LEASE, Called(Refused))], [BLANK.(calls := [1])])
  }

  lemma NotAnApproval()
    ensures Waiting().reply.kind != "login_approval"
  {
    assert Waiting().reply.kind[0] != "login_approval"[0];
  }

  lemma LateRefusal() returns (w: World, es: seq<Event>)
    ensures Initial(w) && Run(Step, w, es) == Refusing()
  {
    w := World(0, 24 * HOUR, [], map[], [], map[], map[], []);
    es := [Store(Waiting().reply), Claim(1, 0, 0, 0), CallProvider(1, Refused)];
    RunThree(Step, w, es[0], es[1], es[2]);
    var stored := w.(rows := [Waiting()], histories := [BLANK]);
    assert Step(w, es[0]) == stored;
    FirstClaim(stored);
    FirstRefusal(stored);
  }

  lemma FirstRefusal(w: World)
    requires w == World(0, 24 * HOUR, [Waiting()], map[], [], map[], map[], [BLANK])
    ensures Step(w.(rows := [Leased(Waiting(), 0, LEASE)], flights := map[1 := Flight(0, 1, LEASE, Calling)]),
                 CallProvider(1, Refused)) == Refusing()
  {
    assert [] + [1] == [1];
  }

  lemma FirstClaim(w: World)
    requires w == World(0, 24 * HOUR, [Waiting()], map[], [], map[], map[], [BLANK])
    ensures Step(w, Claim(1, 0, 0, 0))
         == w.(rows := [Leased(Waiting(), 0, LEASE)], flights := map[1 := Flight(0, 1, LEASE, Calling)])
  {
    NotAnApproval();
    assert Gate(w, 0, Leased(Waiting(), 0, LEASE), 1, 0) == Send;
    assert ClaimedHistory(Waiting(), BLANK, 1) == BLANK;
  }

  const LATE := LEASE + 1

  /** The lease over, a second sender takes the row and delivers it. */
  lemma TakenOver()
    ensures var w := Run(Step, Refusing(), [Claim(2, 0, LATE, LATE), CallProvider(2, Accepted(None)), Mark(2)]);
      && |w.rows| == |w.histories| == 1 && w.rows[0].status == Sent
      && 1 in w.flights && w.flights[1] == Refusing().flights[1]
  {
    RunThree(Step, Refusing(), Claim(2, 0, LATE, LATE), CallProvider(2, Accepted(None)), Mark(2));
    NotAnApproval();
    var row := Leased(Waiting(), 0, LEASE);
    assert Gate(Refusing(), 0, Leased(row, LATE, LEASE), 2, LATE) == Send;
    var w1 := Step(Refusing(), Claim(2, 0, LATE, LATE));
    assert w1.flights == Refusing().flights[2 := Flight(0, 2, LATE + LEASE, Calling)];
    var w2 := Step(w1, CallProvider(2, Accepted(None)));
    assert w2.flights[2].phase == Called(Accepted(None)) && w2.flights[1] == Refusing().flights[1];
  }

  /** So it does happen: a second sender takes over and delivers, then the first one marks. */
  lemma SentCanBeTakenBack() returns (w: World, es: seq<Event>, last: Event)
    ensures Initial(w)
    ensures var sent := Run(Step, w, es); |sent.rows| == 1 && sent.rows[0].status == Sent
    ensures var after := Run(Step, w, es + [last]); |after.rows| == 1 && after.rows[0].status == Pending
  {
    var es0;
    w, es0 := LateRefusal();
    var es1 := [Claim(2, 0, LATE, LATE), CallProvider(2, Accepted(None)), Mark(2)];
    last := Mark(1);
    es := es0 + es1;
    TakenOver();
    RunConcat(Step, w, es0, es1);
    RunSnoc(Step, w, es, last);
  }
}

/**
 The limit can be passed.  Two sweeps load a row whose fourth attempt was refused; the one makes the
 fifth call, refused too; the other claims the row for the sixth time, checks its own copy of the count,
 reads five, and calls.
 */
module SixthCall {
  import opened Wrappers
  import opened Clock
  import opened Outbox
  import opened Runs
  import opened Dispatch

  function WaitingAgain(attempts: nat): Row { Waiting().(attempts := attempts) }

  function Numbers(n: nat): seq<nat> { seq(n, i => i + 1) }

  function Refusals(n: nat, loads: map<SenderId, nat>, over: map<nat, SenderId>): History {
    History(Numbers(n), 0, 0, n, 0, loads, over)
  }

  /** One row, waiting again after `n` refused calls. */
  function After(n: nat, loads: map<SenderId, nat>, over: map<nat, SenderId>): World {
    World(0, 24 * HOUR, [WaitingAgain(n)], map[], [], map[], map[], [Refusals(n, loads, over)])
  }

  function Refusal(who: SenderId): seq<Event> {
    [Claim(who, 0, 0, 0), CallProvider(who, Refused), Mark(who)]
  }

  /** One more refused attempt, by a sender that the check lets through. */
  lemma OneMoreRefusal(n: nat, loads: map<SenderId, nat>, who: SenderId)
    requires Checked(WaitingAgain(n), Refusals(n, loads, map[]), who) <= MAX_SEND_ATTEMPTS
    ensures Run(Step, After(n, loads, map[]), Refusal(who))
         == After(n + 1, loads - {who}, if n >= MAX_SEND_ATTEMPTS then map[n + 1 := who] else map[])
  {
    var w := After(n, loads, map[]);
    var over := if n >= MAX_SEND_ATTEMPTS then map[n + 1 := who] else map[];
    RunThree(Step, w, Claim(who, 0, 0, 0), CallProvider(who, Refused), Mark(who));
    var row := Leased(WaitingAgain(n), 0, LEASE);
    NotAnApproval();
    assert Gate(w, 0, row, Checked(WaitingAgain(n), Refusals(n, loads, map[]), who), 0) == Send;
    var f := Flight(0, n + 1, LEASE, Calling);
    var w1 := Step(w, Claim(who, 0, 0, 0));
    assert ClaimedHistory(WaitingAgain(n), Refusals(n, loads, map[]), who) == Refusals(n, loads - {who}, over);
    assert w1 == w.(rows := [row], flights := map[who := f], histories := [Refusals(n, loads - {who}, over)]);
    var w2 := Step(w1, CallProvider(who, Refused));
    assert Numbers(n) + [n + 1] == Numbers(n + 1);
    assert w2 == w1.(flights := map[who := f.(phase := Called(Refused))],
                     histories := [Refusals(n, loads - {who}, over).(calls := Numbers(n + 1))]);
    var w3 := Step(w2, Mark(who));
    assert w3.rows == [WaitingAgain(n + 1)] && w3.flights == map[];
    assert w3.histories == [Refusals(n + 1, loads - {who}, over)];
  }

  lemma BothSweepsLoad(n: nat)
    ensures Run(Step, After(n, map[], map[]), [Fetch(1, 1, 0), Fetch(2, 1, 0)]) == After(n, map[1 := n, 2 := n], map[])
  {
    var w := After(n, map[], map[]);
    RunOne(Step, w, Fetch(1, 1, 0));
    RunSnoc(Step, w, [Fetch(1, 1, 0)], Fetch(2, 1, 0));
    assert [Fetch(1, 1, 0)] + [Fetch(2, 1, 0)] == [Fetch(1, 1, 0), Fetch(2, 1, 0)];
    assert Sweepable(w.rows, 0, 1, 0) == [0];
    var w1 := Step(w, Fetch(1, 1, 0));
    assert w1.histories == [Refusals(n, map[1 := n], map[])];
    var w2 := Step(w1, Fetch(2, 1, 0));
    assert w2.histories == [Refusals(n, map[1 := n, 2 := n], map[])];
  }

  lemma {:induction false} FirstRefusals(n: nat) returns (w: World, es: seq<Event>)
    requires n <= 4
    ensures Initial(w) && Run(Step, w, es) == After(n, map[], map[])
  {
    if n == 0 {
      w := World(0, 24 * HOUR, [], map[], [], map[], map[], []);
      es := [Store(Waiting().reply)];
      RunOne(Step, w, es[0]);
      assert Numbers(0) == [];
    } else {
      w, es := FirstRefusals(n - 1);
      OneMoreRefusal(n - 1, map[], 9);
      RunConcat(Step, w, es, Refusal(9));
      es := es + Refusal(9);
    }
  }

  /** A run from the empty table in which the provider is called six times for one row. */
  lemma ASixthCallHappens() returns (w: World, es: seq<Event>)
    ensures Initial(w)
    ensures var w' := Run(Step, w, es);
      |w'.histories| == 1 && |w'.histories[0].calls| == MAX_SEND_ATTEMPTS + 1 && w'.histories[0].over == map[6 := 1]
  {
    w, es := FourRefusalsAndTwoSweeps();
    OneMoreRefusal(4, map[1 := 4, 2 := 4], 2);
    assert map[1 := 4, 2 := 4] - {2} == map[1 := 4];
    es := RunsFollowOn(w, es, After(4, map[1 := 4, 2 := 4], map[]), Refusal(2), After(5, map[1 := 4], map[]));
    OneMoreRefusal(5, map[1 := 4], 1);
    assert map[1 := 4] - {1} == map[];
    es := RunsFollowOn(w, es, After(5, map[1 := 4], map[]), Refusal(1), After(6, map[], map[6 := 1]));
  }

  lemma FourRefusalsAndTwoSweeps() returns (w: World, es: seq<Event>)
    ensures Initial(w) && Run(Step, w, es) == After(4, map[1 := 4, 2 := 4], map[])
  {
    w, es := FirstRefusals(4);
    BothSweepsLoad(4);
    es := RunsFollowOn(w, es, After(4, map[], map[]), [Fetch(1, 1, 0), Fetch(2, 1, 0)], After(4, map[1 := 4, 2 := 4], map[]));
  }

  lemma RunsFollowOn(w: World, es: seq<Event>, w1: World, fs: seq<Event>, w2: World) returns (all: seq<Event>)
    requires Run(Step, w, es) == w1 && Run(Step, w1, fs) == w2
    ensures Run(Step, w, all) == w2
  {
    RunConcat(Step, w, es, fs);
    all := es + fs;
  }
}

/** Senders that come back in time: a sender that has not crashed marks before its lease ends. */
module PunctualSenders {
  import opened Wrappers
  import opened Clock
  import opened Outbox
  import opened Runs
  import opened Dispatch

  /** No sender still at work has outlived its lease. */
  ghost predicate Punctual(w: World) {
    forall who :: who in w.flights ==> w.clock <= w.flights[who].lease
  }

  ghost predicate StaysPunctual(w: World, e: Event) {
    Punctual(Step(w, e))
  }

  /** The sender at work on a row owns its lease, and a row is marked sent at most once. */
  ghost predicate Owned(row: Row, h: History, crew: map<SenderId, Flight>) {
    && (forall who :: who in crew ==>
          row.status == Sending && row.lockedUntil == Some(crew[who].lease) && row.attempts == crew[who].attempt)
    && h.markedSent <= 1
    && (row.status == Sent <==> h.markedSent == 1)
    && row.attempts <= MAX_SEND_ATTEMPTS + 1 + |h.over|
    && (row.attempts == MAX_SEND_ATTEMPTS + 1 + |h.over| ==> row.status == Failed)
  }

  ghost predicate PunctualInv(w: World) {
    && Inv(w)
    && (forall id :: 0 <= id < |w.rows| ==> Owned(w.rows[id], w.histories[id], Crew(w.flights, id)))
  }

  /** With its one sender gone, nobody is at work on the row. */
  lemma LastOut(row: Row, h: History, crew: map<SenderId, Flight>, who: SenderId)
    requires RowInv(row, h, crew) && Owned(row, h, crew) && who in crew
    ensures crew - {who} == map[] && crew == map[who := crew[who]]
  {
    forall p | p in crew ensures p == who {
      assert crew[p].attempt == row.attempts == crew[who].attempt;
    }
  }

  /** Elsewhere in the table nothing changes. */
  lemma OthersOwned(w: World, w': World, id: RowId)
    requires PunctualInv(w) && |w'.rows| == |w'.histories| == |w.rows| && id < |w.rows|
    requires forall i :: 0 <= i < |w.rows| && i != id ==>
      w'.rows[i] == w.rows[i] && w'.histories[i] == w.histories[i] && Crew(w'.flights, i) == Crew(w.flights, i)
    requires Owned(w'.rows[id], w'.histories[id], Crew(w'.flights, id))
    requires Inv(w')
    ensures PunctualInv(w')
  {
  }

  /** A row that can be claimed while everyone is punctual has nobody at work on it. */
  lemma Unattended(row: Row, h: History, crew: map<SenderId, Flight>, at: Time)
    requires Owned(row, h, crew) && Claimable(row, at)
    requires forall p :: p in crew ==> at <= crew[p].lease
    ensures crew == map[]
  {
  }

  lemma LeasesStillRun(w: World, w': World, at: Time)
    requires Punctual(w') && at <= w'.clock
    requires forall p :: p in w.flights ==> p in w'.flights && w'.flights[p] == w.flights[p]
    ensures forall p :: p in w.flights ==> at <= w.flights[p].lease
  {
  }

  lemma UnsentSoFar(row: Row, h: History, at: Time)
    requires Owned(row, h, map[]) && Claimable(row, at)
    ensures h.markedSent == 0 && row.attempts <= MAX_SEND_ATTEMPTS + |h.over|
  {
  }

  lemma SentOffIsOwned(row: Row, h: History, who: SenderId, at: Time, id: RowId)
    requires h.markedSent == 0 && row.attempts <= MAX_SEND_ATTEMPTS + |h.over|
    requires LoadsOk(row.attempts, h.loads, h.over) && LetThrough(row, h, who)
    ensures Owned(Leased(row, at, LEASE), ClaimedHistory(row, h, who),
                  map[who := Flight(id, row.attempts + 1, at + LEASE, Calling)])
  {
    RoomForOne(row, h, who);
    OwnFlight(Leased(row, at, LEASE), ClaimedHistory(row, h, who), who,
              Flight(id, row.attempts + 1, at + LEASE, Calling));
  }

  lemma OwnFlight(row: Row, h: History, who: SenderId, f: Flight)
    requires row.status == Sending && row.lockedUntil == Some(f.lease) && row.attempts == f.attempt
    requires h.markedSent == 0 && row.attempts <= MAX_SEND_ATTEMPTS + |h.over|
    ensures Owned(row, h, map[who := f])
  {
  }

  lemma RoomForOne(row: Row, h: History, who: SenderId)
    requires row.attempts <= MAX_SEND_ATTEMPTS + |h.over| && LoadsOk(row.attempts, h.loads, h.over)
    requires LetThrough(row, h, who)
    ensures row.attempts + 1 <= MAX_SEND_ATTEMPTS + |ClaimedHistory(row, h, who).over|
    ensures ClaimedHistory(row, h, who).markedSent == h.markedSent
  {
    ClaimedOver(row, h, who);
  }

  lemma ClosedIsOwned(row: Row, h: History, who: SenderId, at: Time)
    requires Owned(row, h, map[]) && LoadsOk(row.attempts, h.loads, h.over) && Claimable(row, at)
    ensures Owned(Marked(Leased(row, at, LEASE), Failed, None), ClaimedHistory(row, h, who), map[])
    ensures LetThrough(row, h, who) ==>
      Owned(Marked(Leased(row, at, LEASE), Blocked24h, None), ClaimedHistory(row, h, who), map[])
  {
    ClaimedOver(row, h, who);
  }

  /** The claimed row, in each of the three ways the claim can end. */
  lemma ClaimedRowIsOwned(w: World, who: SenderId, id: RowId, at: Time, gateAt: Time)
    requires PunctualInv(w) && Punctual(ClaimStep(w, who, id, at, gateAt)) && !Skipped(w, who, id, at, gateAt)
    ensures var w' := ClaimStep(w, who, id, at, gateAt);
            && |w'.rows| == |w'.histories| == |w.rows|
            && Owned(w'.rows[id], w'.histories[id], Crew(w'.flights, id))
  {
    ClaimShape(w, who, id, at, gateAt);
    var w' := ClaimStep(w, who, id, at, gateAt);
    var row, h, crew := w.rows[id], w.histories[id], Crew(w.flights, id);
    assert Owned(row, h, crew) && RowInv(row, h, crew);
    LeasesStillRun(w, w', at);
    Unattended(row, h, crew, at);
    ClosedIsOwned(row, h, who, at);
    UnsentSoFar(row, h, at);
    if LetThrough(row, h, who) { SentOffIsOwned(row, h, who, at, id); }
    assert crew[who := Flight(id, row.attempts + 1, at + LEASE, Calling)]
        == map[who := Flight(id, row.attempts + 1, at + LEASE, Calling)];
    if w'.flights != w.flights {
      CrewFrame(w.flights, who, Flight(id, row.attempts + 1, at + LEASE, Calling), id);
    }
  }

  lemma ClaimKeepsOwned(w: World, who: SenderId, id: RowId, at: Time, gateAt: Time)
    requires PunctualInv(w) && Punctual(ClaimStep(w, who, id, at, gateAt))
    ensures PunctualInv(ClaimStep(w, who, id, at, gateAt))
  {
    ClaimKeepsInv(w, who, id, at, gateAt);
    ClaimShape(w, who, id, at, gateAt);
    if !Skipped(w, who, id, at, gateAt) {
      ClaimedRowIsOwned(w, who, id, at, gateAt);
      forall i | i != id ensures Crew(ClaimStep(w, who, id, at, gateAt).flights, i) == Crew(w.flights, i) {
        CrewFrame(w.flights, who, Flight(id, w.rows[id].attempts + 1, at + LEASE, Calling), i);
      }
      OthersOwned(w, ClaimStep(w, who, id, at, gateAt), id);
    } else {
      LoadsKeepOwned(w, ClaimStep(w, who, id, at, gateAt));
    }
  }

  /** What sweeps load is no concern of who owns a row. */
  lemma LoadsKeepOwned(w: World, w': World)
    requires PunctualInv(w) && Inv(w') && w'.rows == w.rows && w'.flights == w.flights
    requires forall id :: 0 <= id < |w.rows| ==> w'.histories[id] == w.histories[id].(loads := w'.histories[id].loads)
    ensures PunctualInv(w')
  {
  }

  lemma CallKeepsOwned(w: World, who: SenderId, reply: ProviderReply)
    requires PunctualInv(w)
    ensures PunctualInv(CallStep(w, who, reply))
  {
    CallKeepsInv(w, who, reply);
    if who in w.flights && w.flights[who].phase.Calling? {
      AtWork(w, who);
      var f := w.flights[who];
      assert Owned(w.rows[f.row], w.histories[f.row], Crew(w.flights, f.row));
      CallShape(w, who, reply);
      OthersOwned(w, CallStep(w, who, reply), f.row);
    }
  }

  lemma MarkKeepsOwned(w: World, who: SenderId)
    requires PunctualInv(w)
    ensures PunctualInv(MarkStep(w, who))
  {
    MarkKeepsInv(w, who);
    if who in w.flights && w.flights[who].phase.Called? {
      AtWork(w, who);
      var f := w.flights[who];
      assert Owned(w.rows[f.row], w.histories[f.row], Crew(w.flights, f.row));
      MarkShape(w, who);
      LastOut(w.rows[f.row], w.histories[f.row], Crew(w.flights, f.row), who);
      OthersOwned(w, MarkStep(w, who), f.row);
    }
  }

  lemma CrashKeepsOwned(w: World, who: SenderId)
    requires PunctualInv(w)
    ensures PunctualInv(CrashStep(w, who))
  {
    CrashKeepsInv(w, who);
    if who in w.flights {
      AtWork(w, who);
      var f := w.flights[who];
      assert Owned(w.rows[f.row], w.histories[f.row], Crew(w.flights, f.row));
      CrashShape(w, who);
      OthersOwned(w, CrashStep(w, who), f.row);
    }
  }

  lemma StoreKeepsOwned(w: World, draft: Reply)
    requires PunctualInv(w)
    ensures PunctualInv(Step(w, Store(draft)))
  {
    StoreKeepsInv(w, draft);
    if !HasKey(w.rows, draft.key) {
      assert Crew(w.flights, |w.rows|) == map[];
      NewRowIsOwned(draft);
      AddedRowOwned(w, Step(w, Store(draft)), draft);
    }
  }

  lemma NewRowIsOwned(draft: Reply)
    ensures Owned(NewRow(draft), BLANK, map[])
  {
  }

  ghost predicate AllOwned(w: World) {
    |w.rows| == |w.histories| &&
    forall id :: 0 <= id < |w.rows| ==> Owned(w.rows[id], w.histories[id], Crew(w.flights, id))
  }

  lemma AddedRowOwned(w: World, w': World, draft: Reply)
    requires AllOwned(w) && Crew(w.flights, |w.rows|) == map[] && Owned(NewRow(draft), BLANK, map[])
    requires w'.rows == w.rows + [NewRow(draft)] && w'.histories == w.histories + [BLANK] && w'.flights == w.flights
    ensures AllOwned(w')
  {
    forall id | 0 <= id < |w'.rows| ensures Owned(w'.rows[id], w'.histories[id], Crew(w'.flights, id)) {
      if id < |w.rows| {
        assert w'.rows[id] == w.rows[id] && w'.histories[id] == w.histories[id];
      }
    }
  }

  lemma StepKeepsPunctualInv(w: World, e: Event)
    requires PunctualInv(w) && StaysPunctual(w, e)
    ensures PunctualInv(Step(w, e))
  {
    match e
    case Tick(_) => StepKeepsInv(w, e);
    case Elsewhere(_, _, _) => StepKeepsInv(w, e);
    case Store(draft) => StoreKeepsOwned(w, draft);
    case Fetch(_, _, _) => StepKeepsInv(w, e); LoadsKeepOwned(w, Step(w, e));
    case Claim(who, id, at, gateAt) => ClaimKeepsOwned(w, who, id, at, gateAt);
    case CallProvider(who, reply) => CallKeepsOwned(w, who, reply);
    case Mark(who) => MarkKeepsOwned(w, who);
    case Crash(who) => CrashKeepsOwned(w, who);
  }

  lemma RunKeepsPunctualInv(w: World, es: seq<Event>)
    requires PunctualInv(w) && Allowed(Step, StaysPunctual, w, es)
    ensures PunctualInv(Run(Step, w, es))
  {
    forall t, e | PunctualInv(t) && StaysPunctual(t, e) ensures PunctualInv(Step(t, e)) {
      StepKeepsPunctualInv(t, e);
    }
    Invariance(Step, StaysPunctual, PunctualInv, w, es);
  }

  /**
   If senders that do not crash mark within their lease, then in every run at most one sender is at
   work on a row, and the provider accepts it at most once more than senders crashed between acceptance
   and mark.  The sixth claim, and one more for each sender that an outdated count let through, has
   already closed the row as failed.
   */
  lemma DeliveredOncePlusCrashes(w: World, es: seq<Event>, id: RowId)
    requires Initial(w) && Allowed(Step, StaysPunctual, w, es)
    ensures var w' := Run(Step, w, es);
            |w'.rows| == |w'.histories| &&
            (id < |w'.rows| ==>
               var row, h := w'.rows[id], w'.histories[id];
               && (forall p, q :: p in Crew(w'.flights, id) && q in Crew(w'.flights, id) ==> p == q)
               && h.accepted <= 1 + h.lostAfterAccept
               && (row.status == Sent ==> h.accepted == 1 + h.lostAfterAccept)
               && row.attempts <= MAX_SEND_ATTEMPTS + 1 + |h.over|
               && (row.attempts == MAX_SEND_ATTEMPTS + 1 + |h.over| ==> row.status == Failed))
  {
    RunKeepsPunctualInv(w, es);
    var w' := Run(Step, w, es);
    if id < |w'.rows| {
      var row, h, crew := w'.rows[id], w'.histories[id], Crew(w'.flights, id);
      assert RowInv(row, h, crew) && Owned(row, h, crew);
      if p :| p in crew {
        LastOut(row, h, crew, p);
        assert Acknowledged(crew) <= {p};
        SubsetOfOne(Acknowledged(crew), p);
      } else {
        assert Acknowledged(crew) == {};
      }
    }
  }

  ghost predicate PunctualAndUpToDate(w: World, e: Event) {
    StaysPunctual(w, e) && UpToDate(w, e)
  }

  /** With sweeps that act on current counts besides, the sixth claim is the last and closes the row. */
  lemma SixthClaimCloses(w: World, es: seq<Event>, id: RowId)
    requires Initial(w) && Allowed(Step, PunctualAndUpToDate, w, es)
    ensures var w' := Run(Step, w, es);
            id < |w'.rows| ==>
              && w'.rows[id].attempts <= MAX_SEND_ATTEMPTS + 1
              && (w'.rows[id].attempts == MAX_SEND_ATTEMPTS + 1 ==> w'.rows[id].status == Failed)
  {
    AllowedWeaker(Step, PunctualAndUpToDate, StaysPunctual, w, es);
    AllowedWeaker(Step, PunctualAndUpToDate, UpToDate, w, es);
    DeliveredOncePlusCrashes(w, es, id);
    NobodyEverOver(w, es);
  }

  lemma SubsetOfOne(s: set<SenderId>, p: SenderId)
    requires s <= {p}
    ensures |s| <= 1
  {
    if s != {} { assert s == {p}; }
  }

  /** A step of such a run never takes a sent row back. */
  lemma SentStaysSent(w: World, e: Event, id: RowId)
    requires PunctualInv(w) && id < |w.rows| && w.rows[id].status == Sent
    ensures id < |Step(w, e).rows| && Step(w, e).rows[id].status == Sent
  {
    SentIsLeftExactlyByARefusedMark(w, e, id);
    assert Owned(w.rows[id], w.histories[id], Crew(w.flights, id));
    assert forall p :: p in w.flights && w.flights[p].row == id ==> p in Crew(w.flights, id);
  }

  /** Sent is final: once a prefix of the run has marked a row sent, it is sent ever after. */
  lemma SentIsFinal(w: World, es: seq<Event>, fs: seq<Event>, id: RowId)
    requires Initial(w) && Allowed(Step, StaysPunctual, w, es)
    requires Allowed(Step, StaysPunctual, Run(Step, w, es), fs)
    requires id < |Run(Step, w, es).rows| && Run(Step, w, es).rows[id].status == Sent
    ensures id < |Run(Step, w, es + fs).rows| && Run(Step, w, es + fs).rows[id].status == Sent
  {
    RunKeepsPunctualInv(w, es);
    RunConcat(Step, w, es, fs);
    var kept := (t: World) => PunctualInv(t) && id < |t.rows| && t.rows[id].status == Sent;
    forall t, e | kept(t) && StaysPunctual(t, e) ensures kept(Step(t, e)) {
      StepKeepsPunctualInv(t, e);
      SentStaysSent(t, e, id);
    }
    Invariance(Step, StaysPunctual, kept, Run(Step, w, es), fs);
  }
}
