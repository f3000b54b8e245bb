/** The shared tables refine the private conversations, and what every run of the intake keeps. */
module IntakeProofs {
  import opened Wrappers
  import opened Clock
  import opened Runs
  import opened Outbox
  import opened Intake
  import C = Conversation

  // ----- the conversation table -----

  ghost predicate OneActiveEach(convs: seq<Conv>) {
    forall i, j ::
      (0 <= i < |convs| && 0 <= j < |convs| && convs[i].active && convs[j].active
       && convs[i].contact == convs[j].contact) ==> i == j
  }

  function TalkOf(conv: Conv): Option<Talk> {
    if conv.active then Some(Talk(conv.state, conv.context, conv.expiresAt)) else None
  }

  function ViewOf(convs: seq<Conv>, contact: nat): Option<Talk> {
    var i := ActiveAt(convs, contact);
    if i.None? then None else TalkOf(convs[i.value])
  }

  lemma ActiveIsUnique(convs: seq<Conv>, contact: nat, k: nat)
    requires OneActiveEach(convs) && k < |convs| && IsActiveFor(convs[k], contact)
    ensures ActiveAt(convs, contact) == Some(k)
  {
  }

  /** Rewriting a contact's active conversation shows to that contact only. */
  lemma UpdateShows(convs: seq<Conv>, k: nat, conv: Conv, contact: nat)
    requires OneActiveEach(convs) && k < |convs| && convs[k].active && conv.contact == convs[k].contact
    ensures OneActiveEach(convs[k := conv])
    ensures ViewOf(convs[k := conv], contact) == if contact == conv.contact then TalkOf(conv) else ViewOf(convs, contact)
  {
    var convs' := convs[k := conv];
    var i := ActiveAt(convs', contact);
    if contact == conv.contact {
      ActiveIsUnique(convs, contact, k);
      if conv.active { ActiveIsUnique(convs', contact, k); }
    } else if i.Some? {
      ActiveIsUnique(convs, contact, i.value);
    } else {
      assert forall j :: 0 <= j < |convs| && j != k ==> convs'[j] == convs[j];
    }
  }

  lemma AppendShows(convs: seq<Conv>, conv: Conv, contact: nat)
    requires OneActiveEach(convs) && ActiveAt(convs, conv.contact).None?
    ensures OneActiveEach(convs + [conv])
    ensures ViewOf(convs + [conv], contact) == if contact == conv.contact then TalkOf(conv) else ViewOf(convs, contact)
  {
    var convs' := convs + [conv];
    assert convs'[..|convs'| - 1] == convs;
  }

  lemma LockShows(convs: seq<Conv>, contact: nat, now: Time, other: nat)
    requires OneActiveEach(convs)
    ensures var (convs', i) := LockedConversation(convs, contact, now);
            && OneActiveEach(convs') && |convs'| == |convs|
            && ActiveAt(convs', contact) == i
            && (i.Some? ==> convs' == convs && convs[i.value].expiresAt >= now)
            && (forall k :: 0 <= k < |convs| ==> convs'[k].(active := convs[k].active) == convs[k])
            && (forall k :: 0 <= k < |convs| && convs'[k].active ==> convs[k].active)
            && ViewOf(convs', other) ==
                 var talk := ViewOf(convs, other);
                 if other == contact && talk.Some? && talk.value.expiresAt < now then None else talk
  {
    var i := ActiveAt(convs, contact);
    if i.Some? {
      UpdateShows(convs, i.value, convs[i.value].(active := false), other);
      UpdateShows(convs, i.value, convs[i.value].(active := false), contact);
    }
  }

  // ----- what every run keeps -----

  function KeyInbound(key: Key): Option<string> {
    match key
    case TurnKey(_, inbound, _) => Some(inbound)
    case LoginDecisionKey(inbound) => Some(inbound)
    case VerifyKey(inbound) => Some(inbound)
    case StatusKey(inbound) => Some(inbound)
    case _ => None
  }

  ghost predicate DraftsOk(convs: seq<Conv>, grievances: seq<Grievance>) {
    && (forall g :: 0 <= g < |grievances| && grievances[g].conversation.Some? ==>
          grievances[g].conversation.value < |convs| && C.Rank(convs[grievances[g].conversation.value].state) >= 3)
    && (forall g, h ::
          (0 <= g < |grievances| && 0 <= h < |grievances| && grievances[g].conversation.Some?
           && grievances[g].conversation == grievances[h].conversation) ==> g == h)
  }

  ghost predicate RepliesOk(rows: seq<Row>, consumed: map<string, Consumption>) {
    forall r :: 0 <= r < |rows| && KeyInbound(rows[r].reply.key).Some? ==>
      KeyInbound(rows[r].reply.key).value in consumed
  }

  ghost predicate DoneIsClosed(convs: seq<Conv>) {
    forall k :: 0 <= k < |convs| && convs[k].state == C.Done ==> !convs[k].active
  }

  ghost predicate DbOk(db: Db) {
    && OneActiveEach(db.convs)
    && DoneIsClosed(db.convs)
    && DraftsOk(db.convs, db.grievances)
    && RepliesOk(db.rows, db.consumed)
  }

  /** What an answer in state `s` can be: late stages stay late, each side effect belongs to one state. */
  predicate Fits(s: Option<C.State>, r: C.Result) {
    && (s.Some? && C.Rank(s.value) >= 3 ==> C.Rank(r.state) >= 3)
    && (r.action == C.StartPipeline ==> s == Some(C.AwaitingPhoto) && r.state == C.Processing)
    && (r.close ==> s == Some(C.AwaitingConfirmation))
    && (r.state == C.Done ==> r.close || s == Some(C.Done))
    && |r.intents| <= 1
  }

  lemma LateStaysLate(s: Option<C.State>, c: Option<C.Context>, m: C.Inbound, geocode: Option<C.Geocode>, now: Time)
    ensures var r := C.Advance(s, c, m, geocode, now);
            && (s.Some? && C.Rank(s.value) >= 3 ==> C.Rank(r.state) >= 3)
            && (r.state == C.Done ==> r.close || s == Some(C.Done))
  {
  }

  lemma PipelineStartsAfterThePhoto(s: Option<C.State>, c: Option<C.Context>, m: C.Inbound,
                                    geocode: Option<C.Geocode>, now: Time)
    ensures var r := C.Advance(s, c, m, geocode, now);
            r.action == C.StartPipeline ==> s == Some(C.AwaitingPhoto) && r.state == C.Processing
  {
  }

  lemma OnlyConfirmationCloses(s: Option<C.State>, c: Option<C.Context>, m: C.Inbound, geocode: Option<C.Geocode>,
                               now: Time)
    ensures C.Advance(s, c, m, geocode, now).close ==> s == Some(C.AwaitingConfirmation)
  {
  }

  lemma AtMostOneReply(s: Option<C.State>, c: Option<C.Context>, m: C.Inbound, geocode: Option<C.Geocode>, now: Time)
    ensures |C.Advance(s, c, m, geocode, now).intents| <= 1
  {
  }

  lemma AnswerFits(db: Db, i: Option<nat>, e: Event)
    requires e.Turn? && (i.Some? ==> i.value < |db.convs|)
    ensures Fits(StateAt(db, i), Answer(db, i, e))
  {
    var c := if i.Some? then Some(db.convs[i.value].context) else None;
    LateStaysLate(StateAt(db, i), c, e.m, e.geocode, e.now);
    PipelineStartsAfterThePhoto(StateAt(db, i), c, e.m, e.geocode, e.now);
    OnlyConfirmationCloses(StateAt(db, i), c, e.m, e.geocode, e.now);
    AtMostOneReply(StateAt(db, i), c, e.m, e.geocode, e.now);
  }

  // ----- replies -----

  /** A new message's replies never collide with a key already in the outbox. */
  lemma IntentsAreStored(rows: seq<Row>, consumed: map<string, Consumption>, m: C.Inbound, k: nat, intents: seq<C.Intent>)
    requires RepliesOk(rows, consumed) && m.id !in consumed && |intents| <= 1
    ensures StoredIntents(rows, m, k, intents)
         == rows + if intents == [] then [] else [NewRow(TurnReply(m, k, intents[0]))]
  {
    if intents != [] {
      assert intents[..0] == [];
      assert StoredIntents(rows, m, k, []) == rows;
      assert forall r :: 0 <= r < |rows| ==> KeyInbound(rows[r].reply.key) != Some(m.id);
    }
  }

  lemma StoredKeepsReplies(rows: seq<Row>, consumed: map<string, Consumption>, reply: Reply)
    requires RepliesOk(rows, consumed)
    requires KeyInbound(reply.key).Some? ==> KeyInbound(reply.key).value in consumed
    ensures RepliesOk(Stored(rows, reply), consumed)
  {
  }

  // ----- one step -----

  /** The conversation after the answer. */
  function NextConv(db: Db, i: Option<nat>, e: Event, r: C.Result): Conv
    requires e.Turn? && (i.Some? ==> i.value < |db.convs|)
  {
    var (convs, k) := Upserted(db, i, e.m, r, e.now);
    convs[k].(context := C.Settled(r, e.grievance), active := convs[k].active && !r.close)
  }

  function Written(convs: seq<Conv>, i: Option<nat>, conv: Conv): seq<Conv>
    requires i.Some? ==> i.value < |convs|
  {
    if i.Some? then convs[i.value := conv] else convs + [conv]
  }

  /** A conversation that starts a draft has none yet, so the draft gets the new id. */
  lemma DraftIsNew(db: Db, i: Option<nat>, r: C.Result)
    requires DbOk(db) && (i.Some? ==> i.value < |db.convs|)
    requires Fits(StateAt(db, i), r) && r.action == C.StartPipeline
    ensures i.Some? && NamedBy(db.grievances, i.value).None?
  {
  }

  lemma AppliedWrites(db: Db, i: Option<nat>, e: Event, r: C.Result)
    requires e.Turn? && DbOk(db) && (i.Some? ==> i.value < |db.convs|)
    requires Fits(StateAt(db, i), r) && Applied(db, i, e, r).Some?
    ensures Applied(db, i, e, r).value.convs == Written(db.convs, i, NextConv(db, i, e, r))
  {
    if r.action == C.StartPipeline { DraftIsNew(db, i, r); }
  }

  lemma WrittenShows(convs: seq<Conv>, i: Option<nat>, conv: Conv, contact: nat)
    requires OneActiveEach(convs) && ActiveAt(convs, conv.contact) == i
    ensures OneActiveEach(Written(convs, i, conv))
    ensures ViewOf(Written(convs, i, conv), contact)
         == if contact == conv.contact then TalkOf(conv) else ViewOf(convs, contact)
  {
    if i.Some? {
      UpdateShows(convs, i.value, conv, contact);
    } else {
      AppendShows(convs, conv, contact);
    }
  }

  /** What a turn that reaches the state machine writes. */
  lemma AppliedShows(db: Db, i: Option<nat>, e: Event, r: C.Result, contact: nat)
    requires e.Turn? && DbOk(db) && ActiveAt(db.convs, e.m.contact) == i
    requires Fits(StateAt(db, i), r) && Applied(db, i, e, r).Some?
    ensures var db' := Applied(db, i, e, r).value;
            && OneActiveEach(db'.convs)
            && ViewOf(db'.convs, contact) ==
                 if contact != e.m.contact then ViewOf(db.convs, contact)
                 else if r.close then None
                 else Some(Talk(r.state, C.Settled(r, e.grievance), e.now + db.ttl))
  {
    AppliedWrites(db, i, e, r);
    WrittenShows(db.convs, i, NextConv(db, i, e, r), contact);
  }

  lemma LockKeepsOk(db: Db, contact: nat, now: Time)
    requires DbOk(db)
    ensures DbOk(db.(convs := LockedConversation(db.convs, contact, now).0))
  {
    LockShows(db.convs, contact, now, contact);
  }

  /** The grievances still name what they named; a new one names conversation `k`. */
  predicate DraftedFor(grievances: seq<Grievance>, grievances': seq<Grievance>, k: nat) {
    && |grievances| <= |grievances'| <= |grievances| + 1
    && (forall g :: 0 <= g < |grievances| ==> grievances'[g].conversation == grievances[g].conversation)
    && (|grievances'| > |grievances| ==>
          grievances'[|grievances|].conversation == Some(k) && NamedBy(grievances, k).None?)
  }

  lemma DraftsAfterWrite(convs: seq<Conv>, i: Option<nat>, conv: Conv, grievances: seq<Grievance>,
                         grievances': seq<Grievance>)
    requires DraftsOk(convs, grievances) && (i.Some? ==> i.value < |convs|)
    requires DraftedFor(grievances, grievances', if i.Some? then i.value else |convs|)
    requires |grievances'| > |grievances| ==> C.Rank(conv.state) >= 3
    requires i.Some? && C.Rank(convs[i.value].state) >= 3 ==> C.Rank(conv.state) >= 3
    ensures DraftsOk(Written(convs, i, conv), grievances')
  {
  }

  lemma AppliedDrafts(db: Db, i: Option<nat>, e: Event, r: C.Result)
    requires e.Turn? && DbOk(db) && (i.Some? ==> i.value < |db.convs|)
    requires Fits(StateAt(db, i), r) && Applied(db, i, e, r).Some?
    ensures var gs := Applied(db, i, e, r).value.grievances;
            && DraftedFor(db.grievances, gs, if i.Some? then i.value else |db.convs|)
            && (|gs| > |db.grievances| ==> r.action == C.StartPipeline)
  {
    if r.action == C.StartPipeline { DraftIsNew(db, i, r); }
  }

  lemma AppliedRows(db: Db, i: Option<nat>, e: Event, r: C.Result)
    requires e.Turn? && (i.Some? ==> i.value < |db.convs|) && Applied(db, i, e, r).Some?
    ensures var db' := Applied(db, i, e, r).value;
            && db'.rows == StoredIntents(db.rows, e.m, if i.Some? then i.value else |db.convs|, r.intents)
            && db'.consumed.Keys == db.consumed.Keys + {e.m.id} && db'.ttl == db.ttl
  {
  }

  lemma MachineTurnKeepsOk(db: Db, consumed: map<string, Consumption>, i: Option<nat>, e: Event)
    requires e.Turn? && DbOk(db) && RepliesOk(db.rows, consumed)
    requires e.m.id !in consumed && consumed.Keys <= db.consumed.Keys
    requires ActiveAt(db.convs, e.m.contact) == i && MachineTurn(db, i, e).Some?
    ensures DbOk(MachineTurn(db, i, e).value) && MachineTurn(db, i, e).value.ttl == db.ttl
  {
    AnswerFits(db, i, e);
    AppliedKeepsOk(db, consumed, i, e, Answer(db, i, e));
  }

  lemma AppliedKeepsOk(db: Db, consumed: map<string, Consumption>, i: Option<nat>, e: Event, r: C.Result)
    requires e.Turn? && DbOk(db) && RepliesOk(db.rows, consumed)
    requires e.m.id !in consumed && consumed.Keys <= db.consumed.Keys
    requires ActiveAt(db.convs, e.m.contact) == i && Fits(StateAt(db, i), r) && Applied(db, i, e, r).Some?
    ensures DbOk(Applied(db, i, e, r).value) && Applied(db, i, e, r).value.ttl == db.ttl
  {
    var db' := Applied(db, i, e, r).value;
    AppliedShows(db, i, e, r, e.m.contact);
    AppliedWrites(db, i, e, r);
    AppliedDrafts(db, i, e, r);
    DraftsAfterWrite(db.convs, i, NextConv(db, i, e, r), db.grievances, db'.grievances);
    AppliedRows(db, i, e, r);
    AppliedReplies(db, consumed, i, e, r, db');
    WrittenIsClosed(db.convs, i, NextConv(db, i, e, r));
  }

  lemma AppliedReplies(db: Db, consumed: map<string, Consumption>, i: Option<nat>, e: Event, r: C.Result, db': Db)
    requires e.Turn? && RepliesOk(db.rows, consumed) && e.m.id !in consumed && consumed.Keys <= db.consumed.Keys
    requires |r.intents| <= 1 && db'.consumed.Keys == db.consumed.Keys + {e.m.id}
    requires db'.rows == StoredIntents(db.rows, e.m, if i.Some? then i.value else |db.convs|, r.intents)
    ensures RepliesOk(db'.rows, db'.consumed)
  {
    IntentsAreStored(db.rows, consumed, e.m, if i.Some? then i.value else |db.convs|, r.intents);
  }

  lemma WrittenIsClosed(convs: seq<Conv>, i: Option<nat>, conv: Conv)
    requires DoneIsClosed(convs) && (i.Some? ==> i.value < |convs|) && (conv.state == C.Done ==> !conv.active)
    ensures DoneIsClosed(Written(convs, i, conv))
  {
  }

  lemma StandaloneKeepsOk(db: Db, m: C.Inbound, key: Key)
    requires DbOk(db) && (KeyInbound(key).Some? ==> KeyInbound(key).value in db.consumed)
    ensures DbOk(db.(rows := Stored(db.rows, Standalone(m, key))))
  {
    StoredKeepsReplies(db.rows, db.consumed, Standalone(m, key));
  }

  /** The message is intercepted, is a status query out of any conversation, or reaches the state machine. */
  predicate ReachesMachine(db: Db, e: Event)
    requires e.Turn?
  {
    InterceptKey(e.m).None?
    && !(LockedConversation(db.convs, e.m.contact, e.now).1.None? && Truthy(e.m.text) && e.m.isStatusQuery)
  }

  /** The tables a new message finds: taken, and with an expired conversation switched off. */
  function Found(db: Db, e: Event): Db
    requires e.Turn?
  {
    Taken(db, e.m).(convs := LockedConversation(db.convs, e.m.contact, e.now).0)
  }

  lemma FoundIsOk(db: Db, e: Event)
    requires e.Turn? && DbOk(db)
    ensures DbOk(Taken(db, e.m)) && DbOk(Found(db, e))
    ensures ActiveAt(Found(db, e).convs, e.m.contact) == LockedConversation(db.convs, e.m.contact, e.now).1
  {
    LockShows(db.convs, e.m.contact, e.now, e.m.contact);
    LockKeepsOk(db, e.m.contact, e.now);
  }

  lemma MachineStep(db: Db, e: Event)
    requires e.Turn? && e.committed && TurnTransaction(db, e).Some? && e.m.id !in db.consumed && ReachesMachine(db, e)
    ensures var i := LockedConversation(db.convs, e.m.contact, e.now).1;
            && (i.Some? ==> i.value < |Found(db, e).convs|)
            && MachineTurn(Found(db, e), i, e) == Some(Step(db, e))
  {
  }

  lemma TurnKeepsOk(db: Db, e: Event)
    requires e.Turn? && DbOk(db)
    ensures DbOk(Step(db, e)) && Step(db, e).ttl == db.ttl
  {
    if e.committed && TurnTransaction(db, e).Some? && e.m.id !in db.consumed {
      FoundIsOk(db, e);
      var key := InterceptKey(e.m);
      if ReachesMachine(db, e) {
        MachineStep(db, e);
        MachineTurnKeepsOk(Found(db, e), db.consumed, LockedConversation(db.convs, e.m.contact, e.now).1, e);
      } else if key.Some? {
        StandaloneKeepsOk(Taken(db, e.m), e.m, key.value);
      } else {
        StandaloneKeepsOk(Found(db, e), e.m, StatusKey(e.m.id));
      }
    }
  }

  lemma StateKeepsOk(db: Db, k: nat, s: C.State)
    requires DbOk(db) && k < |db.convs| && db.convs[k].active && 3 <= C.Rank(s) < 5
    ensures DbOk(db.(convs := db.convs[k := db.convs[k].(state := s)]))
  {
    UpdateShows(db.convs, k, db.convs[k].(state := s), db.convs[k].contact);
  }

  lemma FollowUpKeepsOk(db: Db, e: Event)
    requires e.FollowUp? && DbOk(db)
    ensures DbOk(Step(db, e)) && Step(db, e).ttl == db.ttl
  {
    LockShows(db.convs, e.contact, e.now, e.contact);
    var i := LockedConversation(db.convs, e.contact, e.now).1;
    if Step(db, e) != db {
      StateKeepsOk(db, i.value, C.FollowUpState(e.status));
      StoredKeepsReplies(db.rows, db.consumed, FollowUpReply(e, i.value));
    }
  }

  lemma StepKeepsOk(db: Db, e: Event)
    requires DbOk(db)
    ensures DbOk(Step(db, e)) && Step(db, e).ttl == db.ttl
  {
    if e.Turn? { TurnKeepsOk(db, e); } else { FollowUpKeepsOk(db, e); }
  }

  lemma RunKeepsOk(db: Db, es: seq<Event>)
    requires DbOk(db)
    ensures DbOk(Run(Step, db, es)) && Run(Step, db, es).ttl == db.ttl
  {
    var kept := (d: Db) => DbOk(d) && d.ttl == db.ttl;
    forall d, e | kept(d) ensures kept(Step(d, e)) { StepKeepsOk(d, e); }
    AnythingAllowed(Step, db, es);
    Invariance(Step, Any, kept, db, es);
  }

  // ----- refinement -----

  lemma TurnConsumes(db: Db, e: Event)
    requires e.Turn? && e.committed && TurnTransaction(db, e).Some? && e.m.id !in db.consumed
    ensures Step(db, e).consumed.Keys == db.consumed.Keys + {e.m.id}
  {
  }

  lemma MachineTurnShows(db: Db, i: Option<nat>, e: Event, contact: nat)
    requires e.Turn? && DbOk(db) && ActiveAt(db.convs, e.m.contact) == i && MachineTurn(db, i, e).Some?
    ensures ViewOf(MachineTurn(db, i, e).value.convs, contact)
         == if contact == e.m.contact then Continued(db.ttl, ViewOf(db.convs, contact), e) else ViewOf(db.convs, contact)
  {
    AnswerFits(db, i, e);
    AppliedShows(db, i, e, Answer(db, i, e), contact);
    assert i.Some? ==> ViewOf(db.convs, e.m.contact)
                       == Some(Talk(db.convs[i.value].state, db.convs[i.value].context, db.convs[i.value].expiresAt));
  }

  lemma TurnRefines(db: Db, e: Event, contact: nat)
    requires e.Turn? && DbOk(db) && e.committed && TurnTransaction(db, e).Some? && e.m.id !in db.consumed
    ensures ViewOf(Step(db, e).convs, contact) == SpecStep(db.ttl, contact, ViewOf(db.convs, contact), e)
  {
    if ReachesMachine(db, e) {
      MachineTurnRefines(db, e, contact);
    } else if InterceptKey(e.m).None? {
      LockShows(db.convs, e.m.contact, e.now, contact);
      LockShows(db.convs, e.m.contact, e.now, e.m.contact);
    }
  }

  lemma MachineTurnRefines(db: Db, e: Event, contact: nat)
    requires e.Turn? && DbOk(db) && e.committed && TurnTransaction(db, e).Some? && e.m.id !in db.consumed
    requires ReachesMachine(db, e)
    ensures ViewOf(Step(db, e).convs, contact) == SpecStep(db.ttl, contact, ViewOf(db.convs, contact), e)
  {
    LockShows(db.convs, e.m.contact, e.now, contact);
    LockShows(db.convs, e.m.contact, e.now, e.m.contact);
    FoundIsOk(db, e);
    MachineStep(db, e);
    MachineTurnShows(Found(db, e), LockedConversation(db.convs, e.m.contact, e.now).1, e, contact);
  }

  lemma FollowUpRefines(db: Db, e: Event, contact: nat)
    requires e.FollowUp? && DbOk(db) && e.committed && FollowUpTransaction(db, e).Some?
    ensures View(Step(db, e), contact) == SpecStep(db.ttl, contact, View(db, contact), e)
    ensures Step(db, e).consumed == db.consumed
  {
    LockShows(db.convs, e.contact, e.now, contact);
    LockShows(db.convs, e.contact, e.now, e.contact);
    var (convs, i) := LockedConversation(db.convs, e.contact, e.now);
    if i.Some? {
      UpdateShows(db.convs, i.value, db.convs[i.value].(state := C.FollowUpState(e.status)), contact);
    }
  }

  /** A message that has been consumed before changes nothing at all. */
  lemma ReplayChangesNothing(db: Db, e: Event)
    requires e.Turn? && e.m.id in db.consumed
    ensures Step(db, e) == db
  {
  }

  /** The tables say about the contact what the plain fold over the history says. */
  ghost predicate Refines(db: Db, history: seq<Event>, contact: nat) {
    View(db, contact) == Spec(db.ttl, contact, history) && db.consumed.Keys == Ids(history)
  }

  lemma SpecSnoc(ttl: Time, contact: nat, history: seq<Event>, e: Event)
    ensures Spec(ttl, contact, history + [e]) == SpecStep(ttl, contact, Spec(ttl, contact, history), e)
  {
    assert (history + [e])[..|history|] == history;
  }

  lemma NewEventRefines(db: Db, e: Event, history: seq<Event>, contact: nat)
    requires DbOk(db) && e.committed && Truthful(db, e) && Refines(db, history, contact)
    requires e.Turn? ==> e.m.id !in Ids(history)
    ensures Refines(Step(db, e), history + [e], contact)
  {
    SpecSnoc(db.ttl, contact, history, e);
    IdsSnoc(history, e);
    StepKeepsOk(db, e);
    if e.Turn? {
      TurnRefines(db, e, contact);
      TurnConsumes(db, e);
    } else {
      FollowUpRefines(db, e, contact);
    }
  }

  lemma StepRefines(db: Db, e: Event, history: seq<Event>, contact: nat)
    requires DbOk(db) && Truthful(db, e) && Refines(db, history, contact)
    ensures Refines(Step(db, e), Extended(history, e), contact)
  {
    if e.committed {
      if e.Turn? && e.m.id in Ids(history) {
        ReplayChangesNothing(db, e);
      } else {
        NewEventRefines(db, e, history, contact);
      }
    }
  }

  lemma InitialRefines(db: Db, contact: nat)
    requires Initial(db)
    ensures DbOk(db) && Refines(db, [], contact)
  {
    assert Ids([]) == {};
    assert db.consumed.Keys == {};
  }

  /**
   For every interleaving of turns, redeliveries, follow-ups and rollbacks over the shared tables,
   what they say about each contact is the plain fold of its own conversation over the history that
   counts: committed events, each message once, in commit order.
   */
  lemma TablesRefineConversations(db: Db, es: seq<Event>, contact: nat)
    requires Initial(db) && Allowed(Step, Truthful, db, es)
    ensures View(Run(Step, db, es), contact) == Spec(db.ttl, contact, Effective(es))
    ensures Run(Step, db, es).consumed.Keys == Ids(Effective(es))
  {
    var related := (d: Db, history: seq<Event>) => DbOk(d) && d.ttl == db.ttl && Refines(d, history, contact);
    forall d, history, e | related(d, history) && Truthful(d, e) ensures related(Step(d, e), Extended(history, e)) {
      StepKeepsOk(d, e);
      StepRefines(d, e, history, contact);
    }
    InitialRefines(db, contact);
    Simulation(Step, Truthful, Extended, related, db, [], es);
  }

  lemma IdsSnoc(es: seq<Event>, e: Event)
    ensures Ids(es + [e]) == Ids(es) + if e.Turn? then {e.m.id} else {}
  {
    assert forall x :: x in es + [e] <==> x in es || x == e;
    forall id | id in Ids(es) ensures id in Ids(es + [e]) {
      var x :| x in es && x.Turn? && x.m.id == id;
      assert x in es + [e];
    }
    if e.Turn? { assert e in es + [e]; }
  }

  // ----- what a reader of the tables can rely on -----

  /** In every run: one active conversation per contact, none of them done, one grievance per conversation. */
  lemma TablesStayConsistent(db: Db, es: seq<Event>)
    requires Initial(db)
    ensures var db' := Run(Step, db, es);
            && OneActiveEach(db'.convs) && DoneIsClosed(db'.convs) && DraftsOk(db'.convs, db'.grievances)
  {
    RunKeepsOk(db, es);
  }

  function When(e: Event): Time { e.now }

  /** A closed conversation never changes again, and an expired one can only be switched off. */
  lemma ClosedAndExpiredAreNotAdvanced(db: Db, e: Event, k: nat)
    requires DbOk(db) && k < |db.convs|
    requires !db.convs[k].active || db.convs[k].expiresAt < When(e)
    ensures k < |Step(db, e).convs|
    ensures Step(db, e).convs[k] == db.convs[k] || Step(db, e).convs[k] == db.convs[k].(active := false)
  {
    var contact := if e.Turn? then e.m.contact else e.contact;
    LockShows(db.convs, contact, When(e), contact);
  }

  /** A turn that reaches the state machine stores every one of its replies, as a new row to send. */
  lemma EveryReplyIsStored(db: Db, e: Event)
    requires DbOk(db) && e.Turn? && e.committed && TurnTransaction(db, e).Some? && e.m.id !in db.consumed
    requires ReachesMachine(db, e)
    ensures var i := LockedConversation(db.convs, e.m.contact, e.now).1;
            && (i.Some? ==> i.value < |Found(db, e).convs|)
            && var intents := Answer(Found(db, e), i, e).intents;
               var k := if i.Some? then i.value else |db.convs|;
               Step(db, e).rows == db.rows + if intents == [] then [] else [NewRow(TurnReply(e.m, k, intents[0]))]
  {
    FoundIsOk(db, e);
    MachineStep(db, e);
    var i := LockedConversation(db.convs, e.m.contact, e.now).1;
    var r := Answer(Found(db, e), i, e);
    AnswerFits(Found(db, e), i, e);
    AppliedRows(Found(db, e), i, e, r);
    IntentsAreStored(db.rows, db.consumed, e.m, if i.Some? then i.value else |db.convs|, r.intents);
  }

  // ----- which follow-ups are sent -----

  /** Such a follow-up adds its reply exactly when the reply's key is free, and otherwise no row at all. */
  lemma FollowUpIsSentExactlyOnAFreeKey(db: Db, e: Event)
    requires LandsOn(db, e).Some?
    ensures var k := LandsOn(db, e).value;
            var key := PipelineKey(k, StatusName(e.status), e.about);
            Step(db, e).rows == if HasKey(db.rows, key) then db.rows else db.rows + [NewRow(FollowUpReply(e, k))]
  {
  }

  ghost predicate NoPipelineKeys(before: seq<Row>, after: seq<Row>) {
    && |before| <= |after| && after[..|before|] == before
    && (forall r :: |before| <= r < |after| ==> !after[r].reply.key.PipelineKey?)
  }

  lemma {:induction false} IntentsAddNoPipelineKeys(rows: seq<Row>, m: C.Inbound, k: nat, intents: seq<C.Intent>)
    ensures NoPipelineKeys(rows, StoredIntents(rows, m, k, intents))
    decreases |intents|
  {
    if intents != [] {
      IntentsAddNoPipelineKeys(rows, m, k, intents[..|intents| - 1]);
    }
  }

  lemma TurnAddsNoPipelineKeys(db: Db, e: Event)
    requires e.Turn?
    ensures NoPipelineKeys(db.rows, Step(db, e).rows)
  {
    if e.committed && TurnTransaction(db, e).Some? && e.m.id !in db.consumed && ReachesMachine(db, e) {
      MachineStep(db, e);
      LockedIndex(db.convs, e.m.contact, e.now);
      var i := LockedConversation(db.convs, e.m.contact, e.now).1;
      var r := Answer(Found(db, e), i, e);
      AppliedRows(Found(db, e), i, e, r);
      IntentsAddNoPipelineKeys(db.rows, e.m, if i.Some? then i.value else |db.convs|, r.intents);
    }
  }

  lemma LockedIndex(convs: seq<Conv>, contact: nat, now: Time)
    ensures var (convs', i) := LockedConversation(convs, contact, now);
            |convs'| == |convs| && (i.Some? ==> i.value < |convs|)
  {
  }

  lemma SameKeys(before: seq<Row>, after: seq<Row>, key: Key)
    requires NoPipelineKeys(before, after) && key.PipelineKey?
    ensures HasKey(after, key) <==> HasKey(before, key)
  {
    if HasKey(before, key) {
      var i :| 0 <= i < |before| && before[i].reply.key == key;
      assert after[i] == after[..|before|][i];
    }
    if HasKey(after, key) {
      var i :| 0 <= i < |after| && after[i].reply.key == key;
      assert i < |before| && before[i] == after[..|before|][i];
    }
  }

  /** Event `e` of the run lands on conversation `k` with this status, about this complaint. */
  predicate Answers(db: Db, e: Event, k: nat, status: C.PipelineStatus, about: string) {
    LandsOn(db, e) == Some(k) && e.status == status && e.about == about
  }

  ghost predicate AnsweredBefore(db: Db, es: seq<Event>, k: nat, status: C.PipelineStatus, about: string) {
    exists j :: 0 <= j < |es| && Answers(Run(Step, db, es[..j]), es[j], k, status, about)
  }

  lemma DifferentNames()
    ensures StatusName(C.PipelineMismatch) != StatusName(C.PipelineReady)
  {
    assert StatusName(C.PipelineMismatch)[0] != StatusName(C.PipelineReady)[0];
  }

  lemma StepTakesKey(db: Db, e: Event, k: nat, status: C.PipelineStatus, about: string)
    ensures var key := PipelineKey(k, StatusName(status), about);
            HasKey(Step(db, e).rows, key) <==> HasKey(db.rows, key) || Answers(db, e, k, status, about)
  {
    var key := PipelineKey(k, StatusName(status), about);
    DifferentNames();
    if e.Turn? {
      TurnAddsNoPipelineKeys(db, e);
      SameKeys(db.rows, Step(db, e).rows, key);
    } else if LandsOn(db, e).Some? {
      FollowUpIsSentExactlyOnAFreeKey(db, e);
      RowAddsKey(db.rows, FollowUpReply(e, LandsOn(db, e).value), key);
    } else {
      assert Step(db, e).rows == db.rows;
    }
  }

  lemma RowAddsKey(rows: seq<Row>, reply: Reply, key: Key)
    ensures HasKey(rows + [NewRow(reply)], key) <==> HasKey(rows, key) || reply.key == key
  {
    var rows' := rows + [NewRow(reply)];
    assert rows'[|rows|].reply.key == reply.key;
    if HasKey(rows, key) {
      var i :| 0 <= i < |rows| && rows[i].reply.key == key;
      assert rows'[i].reply.key == key;
    }
  }

  lemma AnsweredSnoc(db: Db, es: seq<Event>, e: Event, k: nat, status: C.PipelineStatus, about: string)
    ensures AnsweredBefore(db, es + [e], k, status, about)
       <==> AnsweredBefore(db, es, k, status, about) || Answers(Run(Step, db, es), e, k, status, about)
  {
    var all := es + [e];
    assert all[..|es|] == es;
    assert forall j :: 0 <= j < |es| ==> all[..j] == es[..j] && all[j] == es[j];
    if Answers(Run(Step, db, es), e, k, status, about) { assert all[|es|] == e; }
    if AnsweredBefore(db, es, k, status, about) {
      var j :| 0 <= j < |es| && Answers(Run(Step, db, es[..j]), es[j], k, status, about);
      assert Answers(Run(Step, db, all[..j]), all[j], k, status, about);
    }
  }

  lemma NextKey(db: Db, w: Db, es: seq<Event>, e: Event, k: nat, status: C.PipelineStatus, about: string)
    requires w == Run(Step, db, es)
    requires HasKey(w.rows, PipelineKey(k, StatusName(status), about)) <==> AnsweredBefore(db, es, k, status, about)
    ensures HasKey(Step(w, e).rows, PipelineKey(k, StatusName(status), about))
       <==> AnsweredBefore(db, es + [e], k, status, about)
  {
    StepTakesKey(w, e, k, status, about);
    AnsweredSnoc(db, es, e, k, status, about);
  }

  lemma {:induction false} KeysAreAnswered(db: Db, es: seq<Event>, k: nat, status: C.PipelineStatus, about: string)
    requires Initial(db)
    ensures HasKey(Run(Step, db, es).rows, PipelineKey(k, StatusName(status), about))
       <==> AnsweredBefore(db, es, k, status, about)
    decreases |es|
  {
    if es != [] {
      var before, e := es[..|es| - 1], es[|es| - 1];
      assert before + [e] == es;
      KeysAreAnswered(db, before, k, status, about);
      RunSnoc(Step, db, before, e);
      NextKey(db, Run(Step, db, before), before, e, k, status, about);
    }
  }

  /**
   In every run, a follow-up that lands on a conversation is sent exactly when no earlier one landed there
   with the same status about the same complaint.
   */
  lemma FollowUpIsSentExactlyOnce(db: Db, es: seq<Event>, e: Event)
    requires Initial(db) && LandsOn(Run(Step, db, es), e).Some?
    ensures var w, k := Run(Step, db, es), LandsOn(Run(Step, db, es), e).value;
            Step(w, e).rows == if AnsweredBefore(db, es, k, e.status, e.about) then w.rows
                               else w.rows + [NewRow(FollowUpReply(e, k))]
  {
    var w, k := Run(Step, db, es), LandsOn(Run(Step, db, es), e).value;
    FollowUpIsSentExactlyOnAFreeKey(w, e);
    KeysAreAnswered(db, es, k, e.status, e.about);
  }

  /** The follow-up finds the conversation that is waiting for it, or none. */
  predicate InPlace(db: Db, e: Event) {
    && Truthful(db, e)
    && (e.FollowUp? ==>
          var talk := View(db, e.contact);
          talk.None? || talk.value.expiresAt < e.now
          || C.FollowUpFits(talk.value.state, talk.value.context, e.status, e.about))
  }

  ghost predicate InOrder(talk: Option<Talk>) {
    talk.Some? ==> C.Ok(talk.value.state, talk.value.context)
  }

  ghost predicate Orderly(db: Db) {
    DbOk(db) && forall contact :: InOrder(ViewOf(db.convs, contact))
  }

  lemma TurnKeepsTalkInOrder(ttl: Time, contact: nat, talk: Option<Talk>, e: Event)
    requires e.Turn? && InOrder(talk)
    ensures InOrder(SpecStep(ttl, contact, talk, e))
  {
    if talk.Some? {
      C.TurnKeepsOrder(talk.value.state, talk.value.context, e.m, e.geocode, e.now, e.grievance);
    }
    C.FirstTurnIsOk(e.m, e.geocode, e.now, e.grievance);
  }

  lemma StepKeepsOrder(db: Db, e: Event)
    requires Orderly(db) && InPlace(db, e)
    ensures Orderly(Step(db, e))
  {
    StepKeepsOk(db, e);
    forall contact ensures InOrder(ViewOf(Step(db, e).convs, contact)) {
      assert InOrder(ViewOf(db.convs, contact));
      if !e.committed || (e.Turn? && e.m.id in db.consumed) {
        assert Step(db, e) == db;
      } else if e.Turn? {
        TurnRefines(db, e, contact);
        TurnKeepsTalkInOrder(db.ttl, contact, ViewOf(db.convs, contact), e);
      } else {
        FollowUpRefines(db, e, contact);
      }
    }
  }

  lemma RunKeepsOrder(db: Db, es: seq<Event>)
    requires Orderly(db) && Allowed(Step, InPlace, db, es)
    ensures Orderly(Run(Step, db, es))
    decreases |es|
  {
    if es != [] {
      RunKeepsOrder(db, es[..|es| - 1]);
      StepKeepsOrder(Run(Step, db, es[..|es| - 1]), es[|es| - 1]);
    }
  }

  lemma EmptyIsOrderly(db: Db)
    requires Initial(db)
    ensures Orderly(db)
  {
  }

  lemma OrderlyViews(db: Db, contact: nat)
    requires Orderly(db)
    ensures InOrder(View(db, contact))
  {
    assert InOrder(ViewOf(db.convs, contact));
  }

  /** With follow-ups in place, every contact's conversation has what its stage needs, in every run. */
  lemma ConversationsStayInOrder(db: Db, es: seq<Event>, contact: nat)
    requires Initial(db) && Allowed(Step, InPlace, db, es)
    ensures InOrder(View(Run(Step, db, es), contact))
  {
    EmptyIsOrderly(db);
    RunKeepsOrder(db, es);
    OrderlyViews(Run(Step, db, es), contact);
  }
}
