/**
 One inbound message, one transaction: the consumption row, the conversation, the draft and the
 replies commit together under the contact's lock, or not at all.  The tables are shared by all
 contacts; the theorem is that each contact nevertheless sees a private, sequential conversation.
 */
module Intake {
  import opened Wrappers
  import opened Clock
  import opened Runs
  import opened Outbox
  import opened ButtonIds
  import C = Conversation

  datatype Conv = Conv(contact: nat, state: C.State, context: C.Context, version: nat, active: bool,
                       lastMessageAt: Time, windowEnds: Time, expiresAt: Time)
  datatype Grievance = Grievance(id: string, conversation: Option<nat>, contact: nat,
                                 location: C.Location, messages: seq<C.IssueMessage>,
                                 photo: Option<string>)
  datatype Consumption = Consumption(conversation: Option<nat>, before: Option<C.State>, after: Option<C.State>)

  datatype Db = Db(ttl: Time, serviceWindow: Time,
                   convs: seq<Conv>,                     // conversation ids are positions
                   grievances: seq<Grievance>,
                   consumed: map<string, Consumption>,   // unique on inbound_message_id
                   rows: seq<Row>)                       // the outbox

  /**
   `grievance` is the id a new draft would get.  `committed` is false when the transaction ended in
   an exception and was rolled back.
   */
  datatype Event =
    | Turn(m: C.Inbound, geocode: Option<C.Geocode>, now: Time, grievance: string, committed: bool)
    | FollowUp(contact: nat, about: string, status: C.PipelineStatus, now: Time, committed: bool)

  // ----- conversations.py -----

  predicate IsActiveFor(conv: Conv, contact: nat) { conv.active && conv.contact == contact }

  function ActiveAt(convs: seq<Conv>, contact: nat): (i: Option<nat>)
    ensures i.Some? ==> i.value < |convs| && IsActiveFor(convs[i.value], contact)
    ensures i.None? ==> forall k :: 0 <= k < |convs| ==> !IsActiveFor(convs[k], contact)
  {
    if convs == [] then None
    else
      var n := |convs| - 1;
      if IsActiveFor(convs[n], contact) then Some(n) else ActiveAt(convs[..n], contact)
  }

  /** The active conversation, unless it has expired; an expired one is switched off. */
  function LockedConversation(convs: seq<Conv>, contact: nat, now: Time): (seq<Conv>, Option<nat>) {
    var i := ActiveAt(convs, contact);
    if i.Some? && convs[i.value].expiresAt < now
    then (convs[i.value := convs[i.value].(active := false)], None)
    else (convs, i)
  }

  function Upserted(db: Db, i: Option<nat>, m: C.Inbound, r: C.Result, now: Time): (seq<Conv>, nat)
    requires i.Some? ==> i.value < |db.convs|
  {
    var row := Conv(m.contact, r.state, r.context, 0, true, m.receivedAt,
                      m.receivedAt + db.serviceWindow, now + db.ttl);
    if i.None? then (db.convs + [row], |db.convs|)
    else
      var was := db.convs[i.value];
      (db.convs[i.value := row.(contact := was.contact, version := was.version + 1, active := was.active)],
       i.value)
  }

  // ----- grievances.py -----

  function NamedBy(grievances: seq<Grievance>, conversation: nat): (i: Option<nat>)
    ensures i.Some? ==> i.value < |grievances| && grievances[i.value].conversation == Some(conversation)
    ensures i.None? ==> forall k :: 0 <= k < |grievances| ==> grievances[k].conversation != Some(conversation)
  {
    if grievances == [] then None
    else
      var n := |grievances| - 1;
      if grievances[n].conversation == Some(conversation) then Some(n) else NamedBy(grievances[..n], conversation)
  }

  /** Insert unless the conversation already has a draft, and return the draft's id. */
  function Drafted(grievances: seq<Grievance>, contact: nat, conversation: nat, context: C.Context, id: string)
    : (seq<Grievance>, string)
  {
    var i := NamedBy(grievances, conversation);
    if i.Some? then (grievances, grievances[i.value].id)
    else (grievances + [Grievance(id, Some(conversation), contact, context.location, context.issue.messages,
                                  context.photo.mediaId)], id)
  }

  function WithId(grievances: seq<Grievance>, id: Option<string>): (i: Option<nat>)
    ensures i.Some? ==> i.value < |grievances|
  {
    if grievances == [] || id.None? then None
    else
      var n := |grievances| - 1;
      if grievances[n].id == id.value then Some(n) else WithId(grievances[..n], id)
  }

  // ----- the transaction -----

  predicate Truthy(s: Option<string>) { s.Some? && s.value != "" }

  /** Messages that never reach the conversation: login decisions and verification codes. */
  function InterceptKey(m: C.Inbound): Option<Key> {
    if ParseLoginApprovalId(m.replyId).Some? && Truthy(m.contextId) then Some(LoginDecisionKey(m.id))
    else if Truthy(m.text) && m.isCode then Some(VerifyKey(m.id))
    else None
  }

  function InterceptKind(key: Key): string {
    match key
    case LoginDecisionKey(_) => "login_approval_decision"
    case VerifyKey(_) => "verify_code"
    case _ => "status_query"
  }

  function Standalone(m: C.Inbound, key: Key): Reply {
    Reply(key, m.contact, None, InterceptKind(key), [], Some(m.id))
  }

  function TurnReply(m: C.Inbound, conversation: nat, intent: C.Intent): Reply {
    Reply(TurnKey(conversation, m.id, intent.kind), m.contact, Some(conversation), intent.kind,
          intent.buttons, Some(m.id))
  }

  function StoredIntents(rows: seq<Row>, m: C.Inbound, conversation: nat, intents: seq<C.Intent>): seq<Row>
    decreases |intents|
  {
    if intents == [] then rows
    else
      var n := |intents| - 1;
      Stored(StoredIntents(rows, m, conversation, intents[..n]), TurnReply(m, conversation, intents[n]))
  }

  function StateAt(db: Db, i: Option<nat>): Option<C.State>
    requires i.Some? ==> i.value < |db.convs|
  {
    if i.Some? then Some(db.convs[i.value].state) else None
  }

  /** What the state machine answers in the conversation at `i`. */
  function Answer(db: Db, i: Option<nat>, e: Event): C.Result
    requires e.Turn? && (i.Some? ==> i.value < |db.convs|)
  {
    C.Advance(StateAt(db, i), if i.Some? then Some(db.convs[i.value].context) else None, e.m, e.geocode, e.now)
  }

  /** Everything written for that answer, up to the commit; None is an exception. */
  function Applied(db: Db, i: Option<nat>, e: Event, r: C.Result): Option<Db>
    requires e.Turn? && (i.Some? ==> i.value < |db.convs|)
  {
    var m := e.m;
    var (convs, k) := Upserted(db, i, m, r, e.now);
    var (grievances, id) :=
      if r.action == C.StartPipeline then Drafted(db.grievances, m.contact, k, r.context, e.grievance)
      else (db.grievances, e.grievance);
    var row := WithId(grievances, r.context.draft.grievance);
    if r.action == C.RecheckPhoto && row.None? then None
    else
      var grievances' :=
        if r.action == C.RecheckPhoto && row.Some?
        then grievances[row.value := grievances[row.value].(photo := r.context.photo.mediaId)]
        else grievances;
      Some(db.(convs := convs[k := convs[k].(context := C.Settled(r, id),
                                             active := convs[k].active && !r.close)],
               grievances := grievances',
               consumed := db.consumed[m.id := Consumption(Some(k), StateAt(db, i), Some(r.state))],
               rows := StoredIntents(db.rows, m, k, r.intents)))
  }

  function MachineTurn(db: Db, i: Option<nat>, e: Event): Option<Db>
    requires e.Turn? && (i.Some? ==> i.value < |db.convs|)
  {
    Applied(db, i, e, Answer(db, i, e))
  }

  function Taken(db: Db, m: C.Inbound): Db {
    db.(consumed := db.consumed[m.id := Consumption(None, None, None)])
  }

  function TurnTransaction(db: Db, e: Event): Option<Db>
    requires e.Turn?
  {
    var m := e.m;
    if m.id in db.consumed then Some(db)
    else
      var taken := Taken(db, m);
      var key := InterceptKey(m);
      if key.Some? then Some(taken.(rows := Stored(db.rows, Standalone(m, key.value))))
      else
        var (convs, i) := LockedConversation(db.convs, m.contact, e.now);
        if i.None? && Truthy(m.text) && m.isStatusQuery then
          Some(taken.(convs := convs, rows := Stored(db.rows, Standalone(m, StatusKey(m.id)))))
        else MachineTurn(taken.(convs := convs), i, e)
  }

  function StatusName(s: C.PipelineStatus): string {
    if s == C.PipelineMismatch then "photo_mismatch" else "awaiting_confirmation"
  }

  function FollowUpReply(e: Event, conversation: nat): Reply
    requires e.FollowUp?
  {
    var intent := C.FollowUpIntent(e.status, e.about);
    Reply(PipelineKey(conversation, StatusName(e.status), e.about), e.contact, Some(conversation),
          intent.kind, intent.buttons, None)
  }

  /** On an absent or expired conversation it returns without committing. */
  function FollowUpTransaction(db: Db, e: Event): Option<Db>
    requires e.FollowUp?
  {
    var (convs, i) := LockedConversation(db.convs, e.contact, e.now);
    if i.None? then Some(db)
    else if e.status == C.PipelineReady && WithId(db.grievances, Some(e.about)).None? then None
    else
      Some(db.(convs := convs[i.value := convs[i.value].(state := C.FollowUpState(e.status))],
               rows := Stored(db.rows, FollowUpReply(e, i.value))))
  }

  function Transaction(db: Db, e: Event): Option<Db> {
    if e.Turn? then TurnTransaction(db, e) else FollowUpTransaction(db, e)
  }

  function Step(db: Db, e: Event): Db {
    var after := Transaction(db, e);
    if e.committed && after.Some? then after.value else db
  }

  /** The conversation a committed follow-up writes to; None when it finds none or is rolled back. */
  function LandsOn(db: Db, e: Event): Option<nat> {
    if e.FollowUp? && e.committed && FollowUpTransaction(db, e).Some?
    then LockedConversation(db.convs, e.contact, e.now).1 else None
  }

  /** A transaction that raises is not reported as committed. */
  predicate Truthful(db: Db, e: Event) {
    e.committed ==> Transaction(db, e).Some?
  }

  ghost predicate Initial(db: Db) {
    db.convs == [] && db.grievances == [] && db.consumed == map[] && db.rows == []
  }

  // ----- the specification: one contact, one conversation, one message after another -----

  /** What a contact can be said to be in the middle of. */
  datatype Talk = Talk(state: C.State, context: C.Context, expiresAt: Time)

  function Continued(ttl: Time, talk: Option<Talk>, e: Event): Option<Talk>
    requires e.Turn?
  {
    var r := C.Advance(if talk.Some? then Some(talk.value.state) else None,
                       if talk.Some? then Some(talk.value.context) else None, e.m, e.geocode, e.now);
    if r.close then None else Some(Talk(r.state, C.Settled(r, e.grievance), e.now + ttl))
  }

  function SpecStep(ttl: Time, contact: nat, talk: Option<Talk>, e: Event): Option<Talk> {
    match e
    case Turn(m, _, now, _, _) =>
      if m.contact != contact || InterceptKey(m).Some? then talk
      else
        var current := if talk.Some? && talk.value.expiresAt < now then None else talk;
        if current.None? && Truthy(m.text) && m.isStatusQuery then None
        else Continued(ttl, current, e)
    case FollowUp(who, about, status, now, _) =>
      if who != contact || talk.None? || talk.value.expiresAt < now then talk
      else Some(talk.value.(state := C.FollowUpState(status)))
  }

  function Spec(ttl: Time, contact: nat, es: seq<Event>): Option<Talk>
    decreases |es|
  {
    if es == [] then None
    else SpecStep(ttl, contact, Spec(ttl, contact, es[..|es| - 1]), es[|es| - 1])
  }

  function Ids(es: seq<Event>): set<string> {
    set e | e in es && e.Turn? :: e.m.id
  }

  /** What was rolled back and what was delivered before does not count. */
  function Extended(history: seq<Event>, e: Event): seq<Event> {
    if !e.committed || (e.Turn? && e.m.id in Ids(history)) then history else history + [e]
  }

  /** The history that counts. */
  function Effective(es: seq<Event>): seq<Event> {
    Run(Extended, [], es)
  }

  /** What the tables say about a contact. */
  function View(db: Db, contact: nat): Option<Talk> {
    var i := ActiveAt(db.convs, contact);
    if i.None? then None
    else Some(Talk(db.convs[i.value].state, db.convs[i.value].context, db.convs[i.value].expiresAt))
  }
}
