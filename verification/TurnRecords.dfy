/** What one message or follow-up leaves on the tables, column by column. */
module TurnRecords {
  import opened Wrappers
  import opened Clock
  import opened Runs
  import opened Outbox
  import opened ButtonIds
  import opened Intake
  import opened IntakeProofs
  import C = Conversation

  /** The conversation a message of this contact finds: the active one, unless it has expired. */
  ghost predicate Finds(convs: seq<Conv>, contact: nat, now: Time, i: Option<nat>) {
    match i
    case Some(k) =>
      k < |convs| && convs[k].active && convs[k].contact == contact && now <= convs[k].expiresAt
    case None =>
      forall k :: 0 <= k < |convs| && convs[k].active && convs[k].contact == contact ==> convs[k].expiresAt < now
  }

  /** Expired conversations of the contact are switched off; nothing else changes. */
  ghost predicate ExpiredSwitchedOff(convs: seq<Conv>, convs': seq<Conv>, contact: nat, now: Time) {
    && |convs'| == |convs|
    && forall k :: 0 <= k < |convs| ==>
         convs'[k] == if convs[k].active && convs[k].contact == contact && convs[k].expiresAt < now
                      then convs[k].(active := false) else convs[k]
  }

  lemma LockFinds(convs: seq<Conv>, contact: nat, now: Time, i: Option<nat>)
    requires OneActiveEach(convs)
    ensures Finds(convs, contact, now, i) <==> i == LockedConversation(convs, contact, now).1
    ensures ExpiredSwitchedOff(convs, LockedConversation(convs, contact, now).0, contact, now)
  {
    var k := ActiveAt(convs, contact);
    if k.Some? {
      forall j | 0 <= j < |convs| && convs[j].active && convs[j].contact == contact ensures j == k.value {
        ActiveIsUnique(convs, contact, j);
      }
    }
  }

  // ----- what kind of message it is -----

  /** An answer to a browser login: one of its buttons, in reply to a message. */
  ghost predicate AnswersLogin(m: C.Inbound) {
    && m.contextId.Some? && m.contextId.value != ""
    && exists a :: WellFormed(a) && m.replyId == Some(BuildLoginApprovalId(a))
  }

  ghost predicate SendsCode(m: C.Inbound) { m.isCode && m.text.Some? && m.text.value != "" }

  ghost predicate AsksStatus(m: C.Inbound) { m.isStatusQuery && m.text.Some? && m.text.value != "" }

  lemma InterceptExactly(m: C.Inbound)
    ensures InterceptKey(m) == if AnswersLogin(m) then Some(LoginDecisionKey(m.id))
                               else if SendsCode(m) then Some(VerifyKey(m.id)) else None
  {
    var parsed := ParseLoginApprovalId(m.replyId);
    if parsed.Some? {
      LoginApprovalRoundTrip(m.replyId, parsed.value);
    }
    forall a | WellFormed(a) && m.replyId == Some(BuildLoginApprovalId(a)) ensures parsed == Some(a) {
      LoginApprovalRoundTrip(m.replyId, a);
    }
  }

  /** A reply as it enters the outbox. */
  function Waiting(reply: Reply): Row { Row(reply, Pending, None, 0, None) }

  /** A message that is new and whose transaction commits. */
  ghost predicate Lands(db: Db, e: Event) {
    e.Turn? && e.committed && e.m.id !in db.consumed && TurnTransaction(db, e).Some?
  }

  /** The outbox after a reply of this message's own. */
  lemma OwnReplyIsStored(db: Db, m: C.Inbound, reply: Reply)
    requires RepliesOk(db.rows, db.consumed) && m.id !in db.consumed && KeyInbound(reply.key) == Some(m.id)
    ensures Stored(db.rows, reply) == db.rows + [Waiting(reply)]
  {
  }

  /** Login answers and codes are marked as handled and answered; no conversation notices them. */
  lemma InterceptedWrites(db: Db, e: Event)
    requires DbOk(db) && Lands(db, e) && (AnswersLogin(e.m) || SendsCode(e.m))
    ensures var m := e.m;
      var reply := if AnswersLogin(m) then Reply(LoginDecisionKey(m.id), m.contact, None, "login_approval_decision", [], Some(m.id))
                   else Reply(VerifyKey(m.id), m.contact, None, "verify_code", [], Some(m.id));
      Step(db, e) == db.(consumed := db.consumed[m.id := Consumption(None, None, None)], rows := db.rows + [Waiting(reply)])
  {
    InterceptExactly(e.m);
    OwnReplyIsStored(db, e.m, Standalone(e.m, InterceptKey(e.m).value));
  }

  /** So is a status question out of any conversation; an expired one is switched off by it. */
  lemma StatusWrites(db: Db, e: Event)
    requires DbOk(db) && Lands(db, e) && !AnswersLogin(e.m) && !SendsCode(e.m)
    requires AsksStatus(e.m) && Finds(db.convs, e.m.contact, e.now, None)
    ensures var m, db' := e.m, Step(db, e);
      && ExpiredSwitchedOff(db.convs, db'.convs, m.contact, e.now)
      && db' == db.(convs := db'.convs, consumed := db.consumed[m.id := Consumption(None, None, None)],
                    rows := db.rows + [Waiting(Reply(StatusKey(m.id), m.contact, None, "status_query", [], Some(m.id)))])
  {
    InterceptExactly(e.m);
    LockFinds(db.convs, e.m.contact, e.now, None);
    OwnReplyIsStored(db, e.m, Standalone(e.m, StatusKey(e.m.id)));
  }

  // ----- a turn of a conversation -----

  /** What the conversation at `i` answers, or, without one, a new conversation. */
  function AnswerTo(db: Db, i: Option<nat>, e: Event): C.Result
    requires e.Turn? && (i.Some? ==> i.value < |db.convs|)
  {
    match i
    case None => C.Advance(None, None, e.m, e.geocode, e.now)
    case Some(k) => C.Advance(Some(db.convs[k].state), Some(db.convs[k].context), e.m, e.geocode, e.now)
  }

  /** The message belongs to a conversation: the one it finds, or one it opens. */
  ghost predicate Converses(db: Db, e: Event, i: Option<nat>) {
    && Lands(db, e) && !AnswersLogin(e.m) && !SendsCode(e.m)
    && Finds(db.convs, e.m.contact, e.now, i) && (i == None ==> !AsksStatus(e.m))
  }

  lemma ConversesIsMachineTurn(db: Db, e: Event, i: Option<nat>)
    requires DbOk(db) && Converses(db, e, i)
    ensures ReachesMachine(db, e) && i == LockedConversation(db.convs, e.m.contact, e.now).1
    ensures DbOk(Found(db, e)) && |Found(db, e).convs| == |db.convs| && ActiveAt(Found(db, e).convs, e.m.contact) == i
    ensures i.Some? ==> Found(db, e).convs == db.convs
    ensures ExpiredSwitchedOff(db.convs, Found(db, e).convs, e.m.contact, e.now)
    ensures i.Some? ==> i.value < |db.convs|
    ensures Applied(Found(db, e), i, e, AnswerTo(db, i, e)) == Some(Step(db, e))
    ensures Fits(StateAt(Found(db, e), i), AnswerTo(db, i, e))
  {
    InterceptExactly(e.m);
    LockFinds(db.convs, e.m.contact, e.now, i);
    LockShows(db.convs, e.m.contact, e.now, e.m.contact);
    FoundIsOk(db, e);
    MachineStep(db, e);
    AnswerFits(Found(db, e), i, e);
  }

  /** The context that is kept: a started pipeline's draft is named in it. */
  function Kept(r: C.Result, draft: string): C.Context {
    if r.action == C.StartPipeline
    then C.Context(r.context.location, r.context.issue, r.context.photo, C.Draft(Some(draft), r.context.draft.rechecks))
    else r.context
  }

  /** The conversation table after a turn at `i` that was answered with `r`. */
  ghost predicate ConversationWritten(db: Db, convs: seq<Conv>, e: Event, i: Option<nat>, r: C.Result)
    requires e.Turn? && (i.Some? ==> i.value < |db.convs|)
  {
    var k := if i.Some? then i.value else |db.convs|;
    && |convs| == (if i.Some? then |db.convs| else |db.convs| + 1)
    && convs[k] == Conv(e.m.contact, r.state, Kept(r, e.grievance), if i.Some? then db.convs[k].version + 1 else 0,
                        !r.close, e.m.receivedAt, e.m.receivedAt + db.serviceWindow, e.now + db.ttl)
    && forall j :: 0 <= j < |db.convs| && j != k ==>
         convs[j] == if db.convs[j].active && db.convs[j].contact == e.m.contact && db.convs[j].expiresAt < e.now
                     then db.convs[j].(active := false) else db.convs[j]
  }

  /** A turn rewrites its conversation, or opens it: who and where it is, and how long it and its window last. */
  lemma TurnWritesConversation(db: Db, e: Event, i: Option<nat>)
    requires DbOk(db) && Converses(db, e, i)
    ensures ConversationWritten(db, Step(db, e).convs, e, i, AnswerTo(db, i, e))
  {
    ConversesIsMachineTurn(db, e, i);
    AppliedWrites(Found(db, e), i, e, AnswerTo(db, i, e));
    WrittenIsTold(db, Found(db, e), e, i, AnswerTo(db, i, e));
  }

  lemma WrittenIsTold(db: Db, found: Db, e: Event, i: Option<nat>, r: C.Result)
    requires e.Turn? && OneActiveEach(db.convs) && found == Taken(db, e.m).(convs := found.convs)
    requires Finds(db.convs, e.m.contact, e.now, i) && ExpiredSwitchedOff(db.convs, found.convs, e.m.contact, e.now)
    ensures ConversationWritten(db, Written(found.convs, i, NextConv(found, i, e, r)), e, i, r)
  {
  }

  /** The outbox and the list of handled messages after that turn: its one reply, if it has one, and its own entry. */
  ghost predicate TurnRecorded(db: Db, db': Db, e: Event, i: Option<nat>, r: C.Result)
    requires e.Turn? && (i.Some? ==> i.value < |db.convs|)
  {
    var k := if i.Some? then i.value else |db.convs|;
    && |r.intents| <= 1
    && db'.rows == db.rows + (if r.intents == [] then []
                              else [Waiting(Reply(TurnKey(k, e.m.id, r.intents[0].kind), e.m.contact, Some(k),
                                                  r.intents[0].kind, r.intents[0].buttons, Some(e.m.id)))])
    && db'.consumed == db.consumed[e.m.id := Consumption(Some(k), if i.Some? then Some(db.convs[i.value].state) else None,
                                                         Some(r.state))]
    && db'.ttl == db.ttl && db'.serviceWindow == db.serviceWindow
  }

  lemma TurnWritesReplies(db: Db, e: Event, i: Option<nat>)
    requires DbOk(db) && Converses(db, e, i)
    ensures TurnRecorded(db, Step(db, e), e, i, AnswerTo(db, i, e))
  {
    ConversesIsMachineTurn(db, e, i);
    RecordsAreTold(db, Found(db, e), Step(db, e), e, i, AnswerTo(db, i, e));
  }

  lemma RecordsAreTold(db: Db, found: Db, db': Db, e: Event, i: Option<nat>, r: C.Result)
    requires e.Turn? && RepliesOk(db.rows, db.consumed) && e.m.id !in db.consumed && (i.Some? ==> i.value < |db.convs|)
    requires found == Taken(db, e.m).(convs := found.convs) && |found.convs| == |db.convs|
    requires i.Some? ==> found.convs == db.convs
    requires Fits(StateAt(found, i), r) && Applied(found, i, e, r) == Some(db')
    ensures TurnRecorded(db, db', e, i, r)
  {
    AppliedRecords(found, i, e, r);
    IntentsAreStored(db.rows, db.consumed, e.m, if i.Some? then i.value else |db.convs|, r.intents);
  }

  lemma AppliedRecords(db: Db, i: Option<nat>, e: Event, r: C.Result)
    requires e.Turn? && (i.Some? ==> i.value < |db.convs|) && Applied(db, i, e, r).Some?
    ensures var db', k := Applied(db, i, e, r).value, if i.Some? then i.value else |db.convs|;
      && db'.rows == StoredIntents(db.rows, e.m, k, r.intents)
      && db'.consumed == db.consumed[e.m.id := Consumption(Some(k), StateAt(db, i), Some(r.state))]
      && db'.ttl == db.ttl && db'.serviceWindow == db.serviceWindow
  {
  }

  /** The last complaint that goes by this id. */
  ghost predicate GoesBy(grievances: seq<Grievance>, id: Option<string>, g: nat) {
    && g < |grievances| && id == Some(grievances[g].id)
    && forall h :: g < h < |grievances| ==> id != Some(grievances[h].id)
  }

  lemma {:induction false} WithIdIsLast(grievances: seq<Grievance>, id: Option<string>)
    ensures var i := WithId(grievances, id);
      && (i.Some? ==> GoesBy(grievances, id, i.value))
      && (i.None? ==> forall g :: 0 <= g < |grievances| ==> id != Some(grievances[g].id))
  {
    if grievances != [] && id.Some? {
      var n := |grievances| - 1;
      WithIdIsLast(grievances[..n], id);
      assert forall h :: 0 <= h < n ==> grievances[..n][h] == grievances[h];
    }
  }

  /** The complaints after that turn. */
  ghost predicate ComplaintsWritten(db: Db, grievances: seq<Grievance>, e: Event, i: Option<nat>, r: C.Result)
    requires e.Turn?
  {
    && (r.action == C.StartPipeline ==>
          && i.Some?
          && grievances == db.grievances + [Grievance(e.grievance, i, e.m.contact, r.context.location,
                                                      r.context.issue.messages, r.context.photo.mediaId)])
    && (r.action == C.RecheckPhoto ==>
          exists g: nat ::
            && GoesBy(db.grievances, r.context.draft.grievance, g)
            && grievances == db.grievances[g := db.grievances[g].(photo := r.context.photo.mediaId)])
    && (r.action != C.StartPipeline && r.action != C.RecheckPhoto ==> grievances == db.grievances)
  }

  /**
   A complaint is drafted from what its conversation holds - place, messages, photo - under the new id; a picture
   sent again replaces the photo of the conversation's complaint; no other turn touches a complaint.
   */
  lemma TurnWritesComplaint(db: Db, e: Event, i: Option<nat>)
    requires DbOk(db) && Converses(db, e, i)
    ensures ComplaintsWritten(db, Step(db, e).grievances, e, i, AnswerTo(db, i, e))
  {
    ConversesIsMachineTurn(db, e, i);
    AppliedComplaint(Found(db, e), i, e, AnswerTo(db, i, e));
  }

  lemma AppliedComplaint(db: Db, i: Option<nat>, e: Event, r: C.Result)
    requires e.Turn? && DbOk(db) && (i.Some? ==> i.value < |db.convs|)
    requires Fits(StateAt(db, i), r) && Applied(db, i, e, r).Some?
    ensures ComplaintsWritten(db, Applied(db, i, e, r).value.grievances, e, i, r)
  {
    if r.action == C.StartPipeline { DraftIsNew(db, i, r); }
    if r.action == C.RecheckPhoto { WithIdIsLast(db.grievances, r.context.draft.grievance); }
  }

  /** A turn is undone exactly when it would replace the photo of a complaint that does not exist. */
  lemma TurnRaisesExactly(db: Db, e: Event, i: Option<nat>)
    requires DbOk(db) && e.Turn? && e.m.id !in db.consumed && !AnswersLogin(e.m) && !SendsCode(e.m)
    requires Finds(db.convs, e.m.contact, e.now, i) && (i == None ==> !AsksStatus(e.m))
    ensures TurnTransaction(db, e) == None <==>
      var r := AnswerTo(db, i, e);
      r.action == C.RecheckPhoto
      && forall g :: 0 <= g < |db.grievances| ==> r.context.draft.grievance != Some(db.grievances[g].id)
  {
    InterceptExactly(e.m);
    LockFinds(db.convs, e.m.contact, e.now, i);
    LockShows(db.convs, e.m.contact, e.now, e.m.contact);
    WithIdIsLast(db.grievances, AnswerTo(db, i, e).context.draft.grievance);
    AnswerFits(Found(db, e), i, e);
    if AnswerTo(db, i, e).action == C.StartPipeline { FoundIsOk(db, e); }
  }

  /** All that a turn writes. */
  ghost predicate TurnWritten(db: Db, db': Db, e: Event, i: Option<nat>)
    requires e.Turn? && (i.Some? ==> i.value < |db.convs|)
  {
    && ConversationWritten(db, db'.convs, e, i, AnswerTo(db, i, e))
    && TurnRecorded(db, db', e, i, AnswerTo(db, i, e))
    && ComplaintsWritten(db, db'.grievances, e, i, AnswerTo(db, i, e))
  }

  lemma TurnsAreWritten(db: Db, e: Event)
    requires DbOk(db)
    ensures forall i :: Converses(db, e, i) ==> TurnWritten(db, Step(db, e), e, i)
  {
    forall i | Converses(db, e, i) ensures TurnWritten(db, Step(db, e), e, i) {
      TurnWritesConversation(db, e, i);
      TurnWritesReplies(db, e, i);
      TurnWritesComplaint(db, e, i);
    }
  }

  // ----- a follow-up -----

  /** The pipeline's answer as it goes out: what it asks, of whom, about which complaint. */
  function AnswerRow(e: Event, k: nat): Row
    requires e.FollowUp?
  {
    match e.status
    case PipelineMismatch =>
      Waiting(Reply(PipelineKey(k, "photo_mismatch", e.about), e.contact, Some(k), "image_mismatch",
                    ["photo_share", "photo_continue"], None))
    case PipelineReady =>
      Waiting(Reply(PipelineKey(k, "awaiting_confirmation", e.about), e.contact, Some(k), "pdf_confirm",
                    ["grv_confirm:" + e.about, "grv_cancel:" + e.about], None))
  }

  /**
   A follow-up that finds a conversation, and the complaint it announces, sets the conversation's state and sends
   its question unless the same one was sent before; else it changes nothing.
   */
  lemma FollowUpWrites(db: Db, e: Event, i: Option<nat>)
    requires DbOk(db) && e.FollowUp? && Finds(db.convs, e.contact, e.now, i)
    ensures var unknown := forall g :: 0 <= g < |db.grievances| ==> db.grievances[g].id != e.about;
      if !e.committed || i == None || (e.status == C.PipelineReady && unknown) then Step(db, e) == db
      else
        var row := AnswerRow(e, i.value);
        var sent := exists n :: 0 <= n < |db.rows| && db.rows[n].reply.key == row.reply.key;
        Step(db, e) == db.(
          convs := db.convs[i.value := db.convs[i.value].(
            state := if e.status == C.PipelineReady then C.AwaitingConfirmation else C.PhotoMismatch)],
          rows := if sent then db.rows else db.rows + [row])
  {
    WithIdIsLast(db.grievances, Some(e.about));
    FollowUpStores(db, e, i);
    if i.Some? { AnswerIsTheFollowUp(e, i.value); }
  }

  lemma FollowUpStores(db: Db, e: Event, i: Option<nat>)
    requires DbOk(db) && e.FollowUp? && Finds(db.convs, e.contact, e.now, i)
    ensures i.Some? ==> i.value < |db.convs|
    ensures Step(db, e) ==
      if !e.committed || i == None || (e.status == C.PipelineReady && WithId(db.grievances, Some(e.about)) == None) then db
      else db.(convs := db.convs[i.value := db.convs[i.value].(state := C.FollowUpState(e.status))],
               rows := Stored(db.rows, FollowUpReply(e, i.value)))
  {
    LockFinds(db.convs, e.contact, e.now, i);
    LockShows(db.convs, e.contact, e.now, e.contact);
  }

  lemma AnswerIsTheFollowUp(e: Event, k: nat)
    requires e.FollowUp?
    ensures Waiting(FollowUpReply(e, k)) == AnswerRow(e, k)
  {
    assert C.CONFIRM_GRV_YES_ID + ":" + e.about == "grv_confirm:" + e.about;
    assert C.CONFIRM_GRV_NO_ID + ":" + e.about == "grv_cancel:" + e.about;
  }
}
