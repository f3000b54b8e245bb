/**
 Runs from the empty tables: a citizen files a complaint over WhatsApp up to its draft, and then a follow-up
 comes that is not sent, or one that lands on the wrong conversation.
 */
module IntakeRuns {
  import opened Wrappers
  import opened Clock
  import opened Runs
  import opened Outbox
  import opened ButtonIds
  import opened Intake
  import opened IntakeProofs
  import C = Conversation

  function Empty(): Db { Db(0, 0, [], [], map[], []) }

  function Said(id: string, kind: string, replyId: Option<string>, now: Time): Event {
    Turn(C.Inbound(id, 0, kind, None, None, None, None, replyId, None, now, false, false), None, now, "g", true)
  }

  function LocationSent(): Event {
    Turn(C.Inbound("1", 0, "location", Some(C.Coords(0.0, 0.0)), None, None, None, None, None, 0, false, false),
         None, 0, "g", true)
  }

  function PhotoSent(): Event {
    Turn(C.Inbound("6", 0, "image", None, None, Some("photo"), None, None, None, 0, false, false), None, 0, "g", true)
  }

  function YesTap(): Event { Said("2", "interactive", Some(ConfirmId(C.CONFIRM_YES_ID, "1")), 0) }
  function TextSent(): Event { Said("3", "text", None, 0) }
  function DoneTap(): Event { Said("4", "interactive", Some(C.ISSUE_DONE_ID), 0) }
  function SkipTap(): Event { Said("5", "interactive", Some(C.PHOTO_SKIP_ID), 0) }
  function Mismatch(): Event { FollowUp(0, "g", C.PipelineMismatch, 0, true) }

  /**
   Contact 0 is in conversation number `n - 1`, the latest, which is in state `s`; the messages consumed
   are `ids`, and "g" is a draft if `drafted`.
   */
  ghost predicate At(db: Db, n: nat, s: C.State, c: C.Context, ids: set<string>, drafted: bool, now: Time) {
    match db
    case Db(ttl, _, convs, grievances, consumed, _) =>
      && DbOk(db) && ttl == 0 && |convs| == n && consumed.Keys == ids
      && View(db, 0) == Some(Talk(s, c, now))
      && ActiveAt(convs, 0) == Some(n - 1)
      && (drafted ==> WithId(grievances, Some("g")).Some?)
  }

  lemma {:induction false} FoundById(grievances: seq<Grievance>, g: Grievance, id: string)
    requires g in grievances && g.id == id
    ensures WithId(grievances, Some(id)).Some?
  {
    var n := |grievances| - 1;
    if grievances[n].id != id {
      assert grievances == grievances[..n] + [grievances[n]];
      FoundById(grievances[..n], g, id);
    }
  }

  lemma {:induction false} SameIdsFound(before: seq<Grievance>, after: seq<Grievance>, id: string)
    requires |before| <= |after| && forall i :: 0 <= i < |before| ==> after[i].id == before[i].id
    requires WithId(before, Some(id)).Some?
    ensures WithId(after, Some(id)).Some?
  {
    SomewhereById(before, id);
    var i :| 0 <= i < |before| && before[i].id == id;
    FoundById(after, after[i], id);
  }

  lemma {:induction false} SomewhereById(grievances: seq<Grievance>, id: string)
    requires WithId(grievances, Some(id)).Some?
    ensures exists i :: 0 <= i < |grievances| && grievances[i].id == id
  {
    var n := |grievances| - 1;
    if grievances[n].id != id {
      SomewhereById(grievances[..n], id);
      var i :| 0 <= i < n && grievances[..n][i].id == id;
      assert grievances[i].id == id;
    }
  }

  /** What the answer `r` does to the drafts. */
  lemma DraftsAfter(db: Db, i: Option<nat>, e: Event, r: C.Result)
    requires e.Turn? && e.grievance == "g" && DbOk(db) && (i.Some? ==> i.value < |db.convs|)
    requires Fits(StateAt(db, i), r) && Applied(db, i, e, r).Some?
    requires r.action == C.StartPipeline || WithId(db.grievances, Some("g")).Some?
    ensures WithId(Applied(db, i, e, r).value.grievances, Some("g")).Some?
  {
    var gs := Applied(db, i, e, r).value.grievances;
    if r.action == C.StartPipeline {
      DraftIsNew(db, i, r);
      FoundById(gs, gs[|gs| - 1], "g");
    } else {
      assert forall j :: 0 <= j < |db.grievances| ==> gs[j].id == db.grievances[j].id;
      SameIdsFound(db.grievances, gs, "g");
    }
  }

  lemma NotIntercepted(e: Event)
    requires e.Turn? && e.m.contextId.None? && !e.m.isCode
    ensures InterceptKey(e.m).None?
  {
  }

  /** A new message reaches the state machine, is answered and committed. */
  lemma Commits(db: Db, i: Option<nat>, e: Event, r: C.Result)
    requires DbOk(db) && e.Turn? && e.committed && e.grievance == "g" && e.m.id !in db.consumed
    requires e.m.contextId.None? && !e.m.isCode && (i.None? ==> !e.m.isStatusQuery)
    requires LockedConversation(db.convs, e.m.contact, e.now).1 == i
    requires (i.Some? ==> i.value < |Found(db, e).convs|) && r == Answer(Found(db, e), i, e)
    requires r.action == C.RecheckPhoto ==> WithId(db.grievances, r.context.draft.grievance).Some?
    ensures Applied(Found(db, e), i, e, r) == Some(Step(db, e)) && Truthful(db, e)
    ensures DbOk(Found(db, e)) && Fits(StateAt(Found(db, e), i), r)
  {
    NotIntercepted(e);
    FoundIsOk(db, e);
    AnswerFits(Found(db, e), i, e);
    assert TurnTransaction(db, e) == Applied(Found(db, e), i, e, r);
  }

  lemma AppliedSizes(db: Db, i: Option<nat>, e: Event, r: C.Result, drafted: bool)
    requires e.Turn? && e.grievance == "g" && DbOk(db) && (i.Some? ==> i.value < |db.convs|)
    requires Fits(StateAt(db, i), r) && Applied(db, i, e, r).Some? && (drafted ==> WithId(db.grievances, Some("g")).Some?)
    ensures var db' := Applied(db, i, e, r).value;
      && |db'.convs| == (if i.Some? then |db.convs| else |db.convs| + 1)
      && db'.consumed.Keys == db.consumed.Keys + {e.m.id} && db'.ttl == db.ttl
      && (drafted || r.action == C.StartPipeline ==> WithId(db'.grievances, Some("g")).Some?)
      && (!r.close ==> var k := if i.Some? then i.value else |db.convs|;
            db'.convs[k].contact == NextConv(db, i, e, r).contact && (db'.convs[k].active <==> NextConv(db, i, e, r).active))
  {
    AppliedWrites(db, i, e, r);
    AppliedRows(db, i, e, r);
    if drafted || r.action == C.StartPipeline { DraftsAfter(db, i, e, r); }
  }

  /** A new message in the current conversation. */
  lemma TurnMoves(db: Db, db': Db, n: nat, s: C.State, c: C.Context, ids: set<string>, drafted: bool, e: Event,
                  r: C.Result, s': C.State, c': C.Context, ids': set<string>, drafted': bool)
    requires At(db, n, s, c, ids, drafted, 0) && n > 0 && db' == Step(db, e)
    requires e.Turn? && e.committed && e.grievance == "g" && e.now == 0
    requires e.m.contact == 0 && e.m.id !in ids && e.m.contextId.None? && !e.m.isCode
    requires r == C.Advance(Some(s), Some(c), e.m, e.geocode, 0) && !r.close
    requires r.action == C.RecheckPhoto ==> drafted && r.context.draft.grievance == Some("g")
    requires s' == r.state && c' == C.Settled(r, "g") && ids' == ids + {e.m.id}
    requires drafted' == (drafted || r.action == C.StartPipeline)
    ensures Truthful(db, e) && At(db', n, s', c', ids', drafted', 0)
  {
    var i := Some(n - 1);
    LockShows(db.convs, 0, 0, 0);
    assert LockedConversation(db.convs, 0, 0) == (db.convs, i);
    assert Found(db, e) == Taken(db, e.m) && Answer(Found(db, e), i, e) == r;
    Commits(db, i, e, r);
    StepKeepsOk(db, e);
    TurnRefines(db, e, 0);
    NotIntercepted(e);
    AppliedSizes(Found(db, e), i, e, r, drafted);
    ActiveIsUnique(db'.convs, 0, n - 1);
  }

  /** The contact's first message, or the first after its conversation has expired. */
  lemma FirstTurn(db: Db, db': Db, n: nat, ids: set<string>, drafted: bool, e: Event, r: C.Result)
    requires DbOk(db) && db.ttl == 0 && |db.convs| == n && db.consumed.Keys == ids && db' == Step(db, e)
    requires drafted ==> WithId(db.grievances, Some("g")).Some?
    requires e.Turn? && e.committed && e.grievance == "g"
    requires e.m.contact == 0 && e.m.id !in ids && e.m.contextId.None? && !e.m.isCode && !e.m.isStatusQuery
    requires LockedConversation(db.convs, 0, e.now).1.None?
    requires r == C.Advance(None, None, e.m, e.geocode, e.now)
    ensures Truthful(db, e) && At(db', n + 1, r.state, r.context, ids + {e.m.id}, drafted, e.now)
  {
    LockShows(db.convs, 0, e.now, 0);
    C.FirstTurnIsOk(e.m, e.geocode, e.now, "g");
    Commits(db, None, e, r);
    StepKeepsOk(db, e);
    TurnRefines(db, e, 0);
    NotIntercepted(e);
    AppliedSizes(Found(db, e), None, e, r, drafted);
    ActiveIsUnique(db'.convs, 0, n);
  }

  /** A follow-up that finds the current conversation. */
  lemma FollowUpMoves(db: Db, n: nat, s: C.State, c: C.Context, ids: set<string>, e: Event)
    requires At(db, n, s, c, ids, true, e.now) && n > 0
    requires e.FollowUp? && e.committed && e.contact == 0 && e.about == "g"
    ensures Truthful(db, e) && LandsOn(db, e) == Some(n - 1)
    ensures At(Step(db, e), n, C.FollowUpState(e.status), c, ids, true, e.now)
  {
    LockShows(db.convs, 0, e.now, 0);
    assert LockedConversation(db.convs, 0, e.now) == (db.convs, Some(n - 1));
    StepKeepsOk(db, e);
    FollowUpRefines(db, e, 0);
    ActiveIsUnique(Step(db, e).convs, 0, n - 1);
  }

  // ----- the conversation's own steps -----

  lemma TextIsIssue(c: C.Context, m: C.Inbound)
    requires m.kind == "text" && m.replyId.None?
    ensures var r := C.Advance(Some(C.AwaitingIssue), Some(c), m, None, 0);
            r.state == C.AwaitingIssue && r.action == C.Nothing && !r.close && r.context.issue.messages != []
  {
  }

  lemma DoneEndsIssue(c: C.Context, m: C.Inbound)
    requires ParseConfirmReply(m.replyId) == (Some(C.ISSUE_DONE_ID), None) && c.issue.messages != []
    ensures var r := C.Advance(Some(C.AwaitingIssue), Some(c), m, None, 0);
            r.state == C.AwaitingPhoto && r.action == C.Nothing && !r.close
  {
  }

  lemma SkipStarts(c: C.Context, m: C.Inbound)
    requires ParseConfirmReply(m.replyId) == (Some(C.PHOTO_SKIP_ID), None) && m.mediaId.None?
    ensures var r := C.Advance(Some(C.AwaitingPhoto), Some(c), m, None, 0);
            r.state == C.Processing && r.action == C.StartPipeline && !r.close
  {
  }

  lemma NewPhoto(c: C.Context, m: C.Inbound)
    requires C.HasPhoto(m)
    ensures var r := C.Advance(Some(C.PhotoMismatch), Some(c), m, None, 0);
            && r.state == C.Processing && r.action == C.RecheckPhoto && !r.close
            && r.context.draft.grievance == c.draft.grievance
  {
  }

  lemma LocationStaged()
    ensures var r := C.Advance(None, None, LocationSent().m, None, 0);
            && r.state == C.ConfirmingLocation && r.context.location.source == Some("1")
            && C.Ok(r.state, r.context)
  {
    C.FirstTurnIsOk(LocationSent().m, None, 0, "g");
    assert C.IsLocation(LocationSent().m);
  }

  lemma YesConfirms(c: C.Context)
    requires C.Ok(C.ConfirmingLocation, c) && c.location.source == Some("1")
    ensures var r := C.Advance(Some(C.ConfirmingLocation), Some(c), YesTap().m, None, 0);
            r.state == C.AwaitingIssue && r.action == C.Nothing && !r.close && r.context.draft == c.draft
  {
    assert "1" != "" && !C.IsLocation(YesTap().m);
    C.OnlyTheLatestCardConfirms(c, YesTap().m, None, 0);
    C.ActionsMarkTheBorders(C.ConfirmingLocation, c, YesTap().m, None, 0);
    C.TurnKeepsWhatWasCollected(C.ConfirmingLocation, c, YesTap().m, None, 0, "g");
    DraftKept(c);
  }

  lemma DraftKept(c: C.Context)
    ensures C.Advance(Some(C.ConfirmingLocation), Some(c), YesTap().m, None, 0).context.draft == c.draft
  {
  }

  function FirstMessages(n: nat): set<string>
  {
    if n == 0 then {} else FirstMessages(n - 1) + {Number(n)}
  }

  function Number(n: nat): string { [(n % 10) as char + '0'] }

  lemma OtherNumber(i: nat, n: nat)
    requires i < n < 10
    ensures Number(n) !in FirstMessages(i)
  {
    if i > 0 {
      OtherNumber(i - 1, n);
      assert Number(n)[0] != Number(i)[0];
    }
  }

  lemma Numbers()
    ensures Number(1) == "1" && Number(2) == "2" && Number(3) == "3" && Number(4) == "4"
    ensures Number(5) == "5" && Number(6) == "6" && Number(7) == "7"
  {
  }

  lemma Located() returns (es: seq<Event>, c: C.Context)
    ensures |es| == 1 && Allowed(Step, Truthful, Empty(), es)
    ensures C.Ok(C.ConfirmingLocation, c) && c.location.source == Some("1")
    ensures At(Run(Step, Empty(), es), 1, C.ConfirmingLocation, c, FirstMessages(1), false, 0)
  {
    es := [LocationSent()];
    c := C.Advance(None, None, LocationSent().m, None, 0).context;
    LocationStaged();
    RunOne(Step, Empty(), LocationSent());
    FirstMessage(Run(Step, Empty(), es), C.Advance(None, None, LocationSent().m, None, 0));
    AllowedOne(Step, Truthful, Empty(), LocationSent());
  }

  lemma FirstMessage(db: Db, r: C.Result)
    requires db == Step(Empty(), LocationSent()) && r == C.Advance(None, None, LocationSent().m, None, 0)
    ensures Truthful(Empty(), LocationSent()) && At(db, 1, r.state, r.context, FirstMessages(1), false, 0)
  {
    TheFirstMessage();
    EmptyOk();
    FromNothing(Empty(), LocationSent(), db, r, FirstMessages(1));
  }

  lemma FromNothing(start: Db, e: Event, db: Db, r: C.Result, ids: set<string>)
    requires DbOk(start) && start.ttl == 0 && start.convs == [] && start.consumed.Keys == {}
    requires e.Turn? && e.committed && e.grievance == "g" && e.m.contact == 0 && e.m.contextId.None? && !e.m.isCode
    requires !e.m.isStatusQuery && ids == {} + {e.m.id}
    requires db == Step(start, e) && r == C.Advance(None, None, e.m, e.geocode, e.now)
    ensures Truthful(start, e) && At(db, 1, r.state, r.context, ids, false, e.now)
  {
    FirstTurn(start, db, 0, {}, false, e, r);
  }

  lemma TheFirstMessage()
    ensures FirstMessages(1) == {} + {LocationSent().m.id}
  {
    Numbers();
    assert FirstMessages(0) == {};
  }

  lemma EmptyOk()
    ensures DbOk(Empty()) && Empty().consumed.Keys == {}
  {
  }

  function Answering(s: C.State, c: C.Context, e: Event): C.Result
    requires e.Turn?
  {
    C.Advance(Some(s), Some(c), e.m, e.geocode, 0)
  }

  /** A message that can be number `k + 1` of the run. */
  predicate Numbered(e: Event, k: nat) {
    && e.Turn? && e.committed && e.grievance == "g" && e.now == 0 && k < 9
    && e.m.contact == 0 && e.m.id == Number(k + 1) && e.m.contextId.None? && !e.m.isCode
  }

  lemma AllNumbered()
    ensures Numbered(YesTap(), 1) && Numbered(TextSent(), 2) && Numbered(DoneTap(), 3)
    ensures Numbered(SkipTap(), 4) && Numbered(PhotoSent(), 5)
  {
    Numbers();
  }

  /** One more message of the run. */
  lemma OneMoreMessage(es: seq<Event>, e: Event, k: nat, s: C.State, c: C.Context, drafted: bool, s': C.State, drafted': bool)
    returns (all: seq<Event>, c': C.Context)
    requires Allowed(Step, Truthful, Empty(), es) && At(Run(Step, Empty(), es), 1, s, c, FirstMessages(k), drafted, 0)
    requires Numbered(e, k)
    requires var r := Answering(s, c, e);
      && r.state == s' && !r.close && drafted' == (drafted || r.action == C.StartPipeline)
      && (r.action == C.RecheckPhoto ==> drafted && r.context.draft.grievance == Some("g"))
    ensures all == es + [e] && c' == C.Settled(Answering(s, c, e), "g") && Allowed(Step, Truthful, Empty(), all)
    ensures At(Run(Step, Empty(), all), 1, s', c', FirstMessages(k + 1), drafted', 0)
  {
    all, c' := es + [e], C.Settled(Answering(s, c, e), "g");
    NextMessage(es, e, k, s, c, drafted, Answering(s, c, e), s', c', drafted');
  }

  lemma NextMessage(es: seq<Event>, e: Event, k: nat, s: C.State, c: C.Context, drafted: bool, r: C.Result,
                    s': C.State, c': C.Context, drafted': bool)
    requires Allowed(Step, Truthful, Empty(), es) && At(Run(Step, Empty(), es), 1, s, c, FirstMessages(k), drafted, 0)
    requires Numbered(e, k) && r == Answering(s, c, e) && !r.close
    requires r.action == C.RecheckPhoto ==> drafted && r.context.draft.grievance == Some("g")
    requires s' == r.state && c' == C.Settled(r, "g") && drafted' == (drafted || r.action == C.StartPipeline)
    ensures Allowed(Step, Truthful, Empty(), es + [e])
    ensures At(Run(Step, Empty(), es + [e]), 1, s', c', FirstMessages(k + 1), drafted', 0)
  {
    RunSnoc(Step, Empty(), es, e);
    MessageMoves(Run(Step, Empty(), es), Run(Step, Empty(), es + [e]), e, k, s, c, drafted, r, s', c', drafted');
    AllowedSnoc(Step, Truthful, Empty(), es, e);
  }

  lemma MessageMoves(db: Db, db': Db, e: Event, k: nat, s: C.State, c: C.Context, drafted: bool, r: C.Result,
                     s': C.State, c': C.Context, drafted': bool)
    requires At(db, 1, s, c, FirstMessages(k), drafted, 0) && db' == Step(db, e)
    requires Numbered(e, k) && r == C.Advance(Some(s), Some(c), e.m, e.geocode, 0) && !r.close
    requires r.action == C.RecheckPhoto ==> drafted && r.context.draft.grievance == Some("g")
    requires s' == r.state && c' == C.Settled(r, "g") && drafted' == (drafted || r.action == C.StartPipeline)
    ensures Truthful(db, e) && At(db', 1, s', c', FirstMessages(k + 1), drafted', 0)
  {
    NextNumber(e, k);
    NewMessageMoves(db, db', e, k, s, c, FirstMessages(k), drafted, r, s', c', FirstMessages(k + 1), drafted');
  }

  lemma NextNumber(e: Event, k: nat)
    requires Numbered(e, k)
    ensures e.m.id !in FirstMessages(k) && FirstMessages(k + 1) == FirstMessages(k) + {e.m.id}
  {
    OtherNumber(k, k + 1);
  }

  lemma NewMessageMoves(db: Db, db': Db, e: Event, k: nat, s: C.State, c: C.Context, ids: set<string>, drafted: bool,
                     r: C.Result, s': C.State, c': C.Context, ids': set<string>, drafted': bool)
    requires At(db, 1, s, c, ids, drafted, 0) && db' == Step(db, e)
    requires Numbered(e, k) && r == C.Advance(Some(s), Some(c), e.m, e.geocode, 0) && !r.close
    requires e.m.id !in ids && ids' == ids + {e.m.id}
    requires r.action == C.RecheckPhoto ==> drafted && r.context.draft.grievance == Some("g")
    requires s' == r.state && c' == C.Settled(r, "g") && drafted' == (drafted || r.action == C.StartPipeline)
    ensures Truthful(db, e) && At(db', 1, s', c', ids', drafted', 0)
  {
    TurnMoves(db, db', 1, s, c, ids, drafted, e, r, s', c', ids', drafted');
  }

  lemma Confirmed() returns (es: seq<Event>, c: C.Context)
    ensures |es| == 2 && Allowed(Step, Truthful, Empty(), es)
    ensures At(Run(Step, Empty(), es), 1, C.AwaitingIssue, c, FirstMessages(2), false, 0)
  {
    es, c := Located();
    AllNumbered();
    YesConfirms(c);
    es, c := OneMoreMessage(es, YesTap(), 1, C.ConfirmingLocation, c, false, C.AwaitingIssue, false);
  }

  /** Location, confirmed; the issue in one message. */
  lemma Described() returns (es: seq<Event>, c: C.Context)
    ensures |es| == 3 && Allowed(Step, Truthful, Empty(), es) && c.issue.messages != []
    ensures At(Run(Step, Empty(), es), 1, C.AwaitingIssue, c, FirstMessages(3), false, 0)
  {
    es, c := Confirmed();
    AllNumbered();
    TextIsIssue(c, TextSent().m);
    es, c := OneMoreMessage(es, TextSent(), 2, C.AwaitingIssue, c, false, C.AwaitingIssue, false);
  }

  lemma DoneAnswer(c: C.Context)
    requires c.issue.messages != []
    ensures var r := Answering(C.AwaitingIssue, c, DoneTap());
            r.state == C.AwaitingPhoto && r.action == C.Nothing && !r.close
  {
    C.BareButtons();
    DoneEndsIssue(c, DoneTap().m);
  }

  lemma DoneTapped() returns (es: seq<Event>, c: C.Context)
    ensures |es| == 4 && Allowed(Step, Truthful, Empty(), es)
    ensures At(Run(Step, Empty(), es), 1, C.AwaitingPhoto, c, FirstMessages(4), false, 0)
  {
    var es3, c3 := Described();
    AllNumbered();
    DoneAnswer(c3);
    es, c := OneMoreMessage(es3, DoneTap(), 3, C.AwaitingIssue, c3, false, C.AwaitingPhoto, false);
  }

  lemma SkipAnswer(c: C.Context)
    ensures var r := Answering(C.AwaitingPhoto, c, SkipTap());
            r.state == C.Processing && r.action == C.StartPipeline && !r.close
  {
    C.BareButtons();
    SkipStarts(c, SkipTap().m);
  }

  /** And on to the draft, whose pipeline has been started. */
  lemma Drafted() returns (es: seq<Event>, c: C.Context)
    ensures |es| == 5 && Allowed(Step, Truthful, Empty(), es) && c.draft.grievance == Some("g")
    ensures At(Run(Step, Empty(), es), 1, C.Processing, c, FirstMessages(5), true, 0)
  {
    es, c := DoneTapped();
    AllNumbered();
    SkipAnswer(c);
    es, c := OneMoreMessage(es, SkipTap(), 4, C.AwaitingPhoto, c, false, C.Processing, true);
  }

  lemma AfterFollowUp(es: seq<Event>, k: nat, s: C.State, c: C.Context, e: Event)
    requires Allowed(Step, Truthful, Empty(), es) && At(Run(Step, Empty(), es), 1, s, c, FirstMessages(k), true, 0)
    requires e == Mismatch()
    ensures Allowed(Step, Truthful, Empty(), es + [e])
    ensures Answers(Run(Step, Empty(), es), e, 0, C.PipelineMismatch, "g")
    ensures At(Run(Step, Empty(), es + [e]), 1, C.PhotoMismatch, c, FirstMessages(k), true, 0)
  {
    FollowUpMoves(Run(Step, Empty(), es), 1, s, c, FirstMessages(k), e);
    RunSnoc(Step, Empty(), es, e);
    AllowedSnoc(Step, Truthful, Empty(), es, e);
  }

  /**
   The photo does not fit, the citizen sends another, that does not fit either: the second follow-up lands
   on the conversation as the first one did, and nothing is stored to send.
   */
  lemma ASecondMismatchIsNotSent() returns (es: seq<Event>)
    ensures Initial(Empty()) && Allowed(Step, Truthful, Empty(), es + [Mismatch()])
    ensures LandsOn(Run(Step, Empty(), es), Mismatch()) == Some(0)
    ensures Run(Step, Empty(), es + [Mismatch()]).rows == Run(Step, Empty(), es).rows
  {
    var first, c;
    first, es, c := AnotherPhoto();
    AfterFollowUp(es, 6, C.Processing, c, Mismatch());
    RunSnoc(Step, Empty(), es, Mismatch());
    assert AnsweredBefore(Empty(), es, 0, C.PipelineMismatch, "g");
    FollowUpIsSentExactlyOnce(Empty(), es, Mismatch());
  }

  /** A first follow-up, and another photo. */
  lemma AnotherPhoto() returns (first: nat, es: seq<Event>, c: C.Context)
    ensures first < |es| && Allowed(Step, Truthful, Empty(), es)
    ensures Answers(Run(Step, Empty(), es[..first]), es[first], 0, C.PipelineMismatch, "g")
    ensures At(Run(Step, Empty(), es), 1, C.Processing, c, FirstMessages(6), true, 0)
  {
    var before;
    before, c := Drafted();
    AfterFollowUp(before, 5, C.Processing, c, Mismatch());
    first := |before|;
    AllNumbered();
    NewPhoto(c, PhotoSent().m);
    es, c := OneMoreMessage(before + [Mismatch()], PhotoSent(), 5, C.PhotoMismatch, c, true, C.Processing, true);
    assert es[..first] == before && es[first] == Mismatch();
  }

  // ----- the wrong conversation -----

  function LateText(): Event { Said("6", "text", None, 1) }
  function LateAnswer(): Event { FollowUp(0, "g", C.PipelineReady, 1, true) }
  function LateTap(): Event { Said("7", "interactive", Some(C.CONFIRM_GRV_YES_ID), 1) }

  lemma GreetingFirst()
    ensures C.Advance(None, None, LateText().m, None, 1)
         == C.Stay(C.AwaitingLocation, C.DEFAULT_CONTEXT, [C.Intent("greeting_location", [])])
  {
    assert !C.IsLocation(LateText().m);
  }

  lemma NewConversation() returns (es: seq<Event>)
    ensures Allowed(Step, Truthful, Empty(), es)
    ensures At(Run(Step, Empty(), es), 2, C.AwaitingLocation, C.DEFAULT_CONTEXT, FirstMessages(6), true, 1)
  {
    var es5, c5 := Drafted();
    var db := Run(Step, Empty(), es5);
    Numbers();
    OtherNumber(5, 6);
    GreetingFirst();
    LockShows(db.convs, 0, 1, 0);
    FirstTurn(db, Step(db, LateText()), 1, FirstMessages(5), true, LateText(),
              C.Stay(C.AwaitingLocation, C.DEFAULT_CONTEXT, [C.Intent("greeting_location", [])]));
    RunSnoc(Step, Empty(), es5, LateText());
    AllowedSnoc(Step, Truthful, Empty(), es5, LateText());
    es := es5 + [LateText()];
  }

  /**
   The citizen's conversation expires while the pipeline runs; a new one starts; the pipeline's late answer
   lands there; and a bare button then finalizes a conversation that has no complaint.
   */
  lemma ALateAnswerFinalizesNothing() returns (es: seq<Event>)
    ensures Initial(Empty()) && Allowed(Step, Truthful, Empty(), es)
    ensures var db := Run(Step, Empty(), es);
      && LockedConversation(db.convs, 0, 1) == (db.convs, Some(1))
      && db.convs[1].state == C.AwaitingConfirmation && db.convs[1].context.draft.grievance.None?
      && LateTap().m.id !in db.consumed && InterceptKey(LateTap().m).None?
      && var r := Answer(db, Some(1), LateTap());
         r.action == C.Finalize && r.close && r.context.draft.grievance.None?
  {
    var es6 := NewConversation();
    var db := Run(Step, Empty(), es6);
    FollowUpMoves(db, 2, C.AwaitingLocation, C.DEFAULT_CONTEXT, FirstMessages(6), LateAnswer());
    RunSnoc(Step, Empty(), es6, LateAnswer());
    AllowedSnoc(Step, Truthful, Empty(), es6, LateAnswer());
    es := es6 + [LateAnswer()];
    var after := Step(db, LateAnswer());
    Numbers();
    OtherNumber(6, 7);
    NotIntercepted(LateTap());
    LockShows(after.convs, 0, 1, 0);
    C.BareYesFinalizesNothing(C.DEFAULT_CONTEXT, LateTap().m, 1);
  }
}
