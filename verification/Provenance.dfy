/**
 Where the contents of a complaint come from: in every run of the shared tables, with any interleaving, rollback,
 expiry and redelivery, what is filed for a contact is what that contact sent.
 */
module Provenance {
  import opened Wrappers
  import opened Clock
  import opened Runs
  import opened Intake
  import opened IntakeProofs
  import opened TurnRecords
  import opened Story
  import C = Conversation

  /** A committed message of the contact. */
  ghost predicate By(e: Event, contact: nat) {
    e.Turn? && e.committed && e.m.contact == contact
  }

  ghost predicate SentPlace(es: seq<Event>, i: nat, contact: nat) {
    i < |es| && By(es[i], contact) && SendsPlace(es[i].m)
  }

  /** The contact sent this place. */
  ghost predicate WasSent(es: seq<Event>, contact: nat, place: C.Location) {
    exists i: nat :: SentPlace(es, i, contact) && place == PlaceOf(es[i].m, es[i].geocode, None)
  }

  /** Message `j` is the contact's Yes to the card of the place in message `i`. */
  ghost predicate SaidYes(es: seq<Event>, i: nat, j: nat, contact: nat) {
    && SentPlace(es, i, contact) && i < j < |es| && By(es[j], contact)
    && es[j].m.replyId == Some("loc_confirm_yes:" + es[i].m.id)
  }

  /** The contact sent this place and said Yes to it. */
  ghost predicate WasConfirmed(es: seq<Event>, contact: nat, place: C.Location) {
    exists i: nat, j: nat :: SaidYes(es, i, j, contact) && place == PlaceOf(es[i].m, es[i].geocode, Some(es[j].now))
  }

  /** The contact sent this part of the issue. */
  ghost predicate WasTold(es: seq<Event>, contact: nat, part: C.IssueMessage) {
    exists i: nat :: i < |es| && By(es[i], contact) && TellsIssue(es[i].m)
      && part == C.IssueMessage(es[i].m.id, es[i].m.receivedAt, es[i].m.kind, es[i].m.text, es[i].m.mediaId, es[i].m.mime)
  }

  /** The contact sent this picture. */
  ghost predicate WasPictured(es: seq<Event>, contact: nat, mediaId: string) {
    exists i: nat :: i < |es| && By(es[i], contact) && SendsPicture(es[i].m) && es[i].m.mediaId == Some(mediaId)
  }

  /** A conversation in state `s` with context `c` holds what the contact sent. */
  ghost predicate Backed(es: seq<Event>, contact: nat, s: C.State, c: C.Context) {
    && (s == C.ConfirmingLocation ==> WasSent(es, contact, c.location))
    && (s in {C.AwaitingIssue, C.AwaitingPhoto} || c.draft.grievance.Some? ==> WasConfirmed(es, contact, c.location))
    && (c.draft.grievance.Some? ==> C.Rank(s) >= 3)
    && (forall n :: 0 <= n < |c.issue.messages| ==> WasTold(es, contact, c.issue.messages[n]))
    && (c.photo.mediaId.Some? ==> WasPictured(es, contact, c.photo.mediaId.value))
  }

  // ----- nothing sent is unsent -----

  lemma StillSent(es: seq<Event>, e: Event, contact: nat, place: C.Location)
    ensures WasSent(es, contact, place) ==> WasSent(es + [e], contact, place)
    ensures WasConfirmed(es, contact, place) ==> WasConfirmed(es + [e], contact, place)
  {
    var es' := es + [e];
    if WasSent(es, contact, place) {
      var i: nat :| SentPlace(es, i, contact) && place == PlaceOf(es[i].m, es[i].geocode, None);
      assert SentPlace(es', i, contact) && es'[i] == es[i];
    }
    if WasConfirmed(es, contact, place) {
      var i: nat, j: nat :| SaidYes(es, i, j, contact) && place == PlaceOf(es[i].m, es[i].geocode, Some(es[j].now));
      assert SaidYes(es', i, j, contact) && es'[i] == es[i] && es'[j] == es[j];
    }
  }

  lemma StillTold(es: seq<Event>, e: Event, contact: nat, part: C.IssueMessage)
    requires WasTold(es, contact, part)
    ensures WasTold(es + [e], contact, part)
  {
    var i: nat :| i < |es| && By(es[i], contact) && TellsIssue(es[i].m)
      && part == C.IssueMessage(es[i].m.id, es[i].m.receivedAt, es[i].m.kind, es[i].m.text, es[i].m.mediaId, es[i].m.mime);
    assert (es + [e])[i] == es[i];
  }

  lemma StillPictured(es: seq<Event>, e: Event, contact: nat, mediaId: string)
    requires WasPictured(es, contact, mediaId)
    ensures WasPictured(es + [e], contact, mediaId)
  {
    var i: nat :| i < |es| && By(es[i], contact) && SendsPicture(es[i].m) && es[i].m.mediaId == Some(mediaId);
    assert (es + [e])[i] == es[i];
  }

  lemma StillBacked(es: seq<Event>, e: Event, contact: nat, s: C.State, c: C.Context)
    requires Backed(es, contact, s, c)
    ensures Backed(es + [e], contact, s, c)
  {
    StillSent(es, e, contact, c.location);
    forall n | 0 <= n < |c.issue.messages| ensures WasTold(es + [e], contact, c.issue.messages[n]) {
      StillTold(es, e, contact, c.issue.messages[n]);
    }
    if c.photo.mediaId.Some? { StillPictured(es, e, contact, c.photo.mediaId.value); }
  }

  // ----- one turn -----

  /** What a turn makes of the place. */
  ghost predicate PlaceAfter(s: C.State, c: C.Context, e: Event, r: C.Result)
    requires e.Turn?
  {
    var place := r.context.location;
    && (r.state == C.ConfirmingLocation ==>
          || (SendsPlace(e.m) && place == PlaceOf(e.m, e.geocode, None))
          || (s == C.ConfirmingLocation && place == c.location))
    && (r.state in {C.AwaitingIssue, C.AwaitingPhoto} ==>
          || (s in {C.AwaitingIssue, C.AwaitingPhoto} && place == c.location)
          || (s == C.ConfirmingLocation && place == c.location.(confirmedAt := Some(e.now))
              && c.location.source.Some? && e.m.replyId == Some("loc_confirm_yes:" + c.location.source.value)))
    && (r.action == C.StartPipeline ==> s == C.AwaitingPhoto && place == c.location)
  }

  lemma TurnPlaces(s: C.State, c: C.Context, e: Event)
    requires e.Turn? && (s == C.ConfirmingLocation ==> c.location.source.Some?)
    ensures PlaceAfter(s, c, e, C.Advance(Some(s), Some(c), e.m, e.geocode, e.now))
  {
    if s in {C.Expired, C.AwaitingLocation, C.ConfirmingLocation} && SendsPlace(e.m) {
      PlaceIsStaged(Some(s), Some(c), e.m, e.geocode, e.now);
    } else if s in {C.Expired, C.AwaitingLocation} {
      NoPlaceYet(Some(s), Some(c), e.m, e.geocode, e.now);
    } else if s == C.ConfirmingLocation {
      if c.location.source.value == "" {
        NamelessIsNotConfirmed(c, e.m, e.geocode, e.now);
      } else {
        CardIsAnswered(c, e.m, e.geocode, e.now);
      }
    } else if s == C.AwaitingIssue {
      IssueIsTold(c, e.m, e.geocode, e.now);
    } else if s == C.AwaitingPhoto {
      PhotoIsAnswered(c, e.m, e.geocode, e.now);
    }
  }

  /** A conversation with a draft keeps its place, and no turn but the one that starts the pipeline names a draft. */
  lemma TurnKeepsDraft(s: C.State, c: C.Context, e: Event)
    requires e.Turn?
    ensures var r := C.Advance(Some(s), Some(c), e.m, e.geocode, e.now);
      && r.context.draft.grievance == c.draft.grievance
      && (C.Rank(s) >= 3 ==> r.context.location == c.location && C.Rank(r.state) >= 3)
      && (r.action == C.StartPipeline ==> r.state == C.Processing)
  {
  }

  lemma PlaceIsBacked(es: seq<Event>, contact: nat, s: C.State, c: C.Context, e: Event, r: C.Result)
    requires Backed(es, contact, s, c) && By(e, contact) && PlaceAfter(s, c, e, r)
    ensures r.state == C.ConfirmingLocation ==> WasSent(es + [e], contact, r.context.location)
    ensures r.state in {C.AwaitingIssue, C.AwaitingPhoto} || r.action == C.StartPipeline ==>
      WasConfirmed(es + [e], contact, r.context.location)
  {
    StillSent(es, e, contact, c.location);
    var es' := es + [e];
    if SendsPlace(e.m) && r.context.location == PlaceOf(e.m, e.geocode, None) {
      assert es'[|es|] == e && SentPlace(es', |es|, contact);
    }
    if r.state in {C.AwaitingIssue, C.AwaitingPhoto} && s == C.ConfirmingLocation {
      var i: nat :| SentPlace(es, i, contact) && c.location == PlaceOf(es[i].m, es[i].geocode, None);
      assert es'[i] == es[i] && es'[|es|] == e && SaidYes(es', i, |es|, contact);
    }
  }

  lemma IssueIsBacked(es: seq<Event>, contact: nat, s: C.State, c: C.Context, e: Event)
    requires Backed(es, contact, s, c) && By(e, contact)
    ensures var issue := C.Advance(Some(s), Some(c), e.m, e.geocode, e.now).context.issue;
      forall n :: 0 <= n < |issue.messages| ==> WasTold(es + [e], contact, issue.messages[n])
  {
    TurnTells(s, c, e.m, e.geocode, e.now);
    PartsAreBacked(es, contact, s, c.issue.messages, e);
  }

  lemma PartsAreBacked(es: seq<Event>, contact: nat, s: C.State, before: seq<C.IssueMessage>, e: Event)
    requires By(e, contact) && forall n :: 0 <= n < |before| ==> WasTold(es, contact, before[n])
    ensures var parts := before + Adds(s, C.Said(e.m, e.geocode, e.now, ""));
      forall n :: 0 <= n < |parts| ==> WasTold(es + [e], contact, parts[n])
  {
    var parts := before + Adds(s, C.Said(e.m, e.geocode, e.now, ""));
    forall n | 0 <= n < |parts| ensures WasTold(es + [e], contact, parts[n]) {
      if n < |before| {
        StillTold(es, e, contact, before[n]);
      } else {
        assert (es + [e])[|es|] == e;
      }
    }
  }

  lemma PhotoIsBacked(es: seq<Event>, contact: nat, s: C.State, c: C.Context, e: Event)
    requires Backed(es, contact, s, c) && By(e, contact)
    ensures var photo := C.Advance(Some(s), Some(c), e.m, e.geocode, e.now).context.photo;
      photo.mediaId.Some? ==> WasPictured(es + [e], contact, photo.mediaId.value)
  {
    TurnSettlesPhoto(s, c, C.Said(e.m, e.geocode, e.now, ""));
    if c.photo.mediaId.Some? { StillPictured(es, e, contact, c.photo.mediaId.value); }
    assert (es + [e])[|es|] == e;
  }

  lemma TurnIsBacked(es: seq<Event>, contact: nat, s: C.State, c: C.Context, e: Event, draft: string)
    requires Backed(es, contact, s, c) && By(e, contact)
    ensures var r := C.Advance(Some(s), Some(c), e.m, e.geocode, e.now);
      Backed(es + [e], contact, r.state, Kept(r, draft))
  {
    var r := C.Advance(Some(s), Some(c), e.m, e.geocode, e.now);
    TurnPlaces(s, c, e);
    TurnKeepsDraft(s, c, e);
    PlaceIsBacked(es, contact, s, c, e, r);
    StillSent(es, e, contact, c.location);
    IssueIsBacked(es, contact, s, c, e);
    PhotoIsBacked(es, contact, s, c, e);
    AllIsBacked(es + [e], contact, s, c, r, draft);
  }

  lemma AllIsBacked(es: seq<Event>, contact: nat, s: C.State, c: C.Context, r: C.Result, draft: string)
    requires r.state == C.ConfirmingLocation ==> WasSent(es, contact, r.context.location)
    requires r.state in {C.AwaitingIssue, C.AwaitingPhoto} || r.action == C.StartPipeline ==>
      WasConfirmed(es, contact, r.context.location)
    requires c.draft.grievance.Some? ==> WasConfirmed(es, contact, c.location) && C.Rank(s) >= 3
    requires r.context.draft.grievance == c.draft.grievance && (r.action == C.StartPipeline ==> r.state == C.Processing)
    requires C.Rank(s) >= 3 ==> r.context.location == c.location && C.Rank(r.state) >= 3
    requires forall n :: 0 <= n < |r.context.issue.messages| ==> WasTold(es, contact, r.context.issue.messages[n])
    requires r.context.photo.mediaId.Some? ==> WasPictured(es, contact, r.context.photo.mediaId.value)
    ensures Backed(es, contact, r.state, Kept(r, draft))
  {
  }

  /** The first message finds nothing that would need backing. */
  lemma FirstTurnIsBacked(es: seq<Event>, contact: nat, e: Event, draft: string)
    requires By(e, contact)
    ensures var r := C.Advance(None, None, e.m, e.geocode, e.now); Backed(es + [e], contact, r.state, Kept(r, draft))
  {
    TurnIsBacked(es, contact, C.AwaitingLocation, C.DEFAULT_CONTEXT, e, draft);
    FirstIsLikeAny(e, draft);
  }

  lemma FirstIsLikeAny(e: Event, draft: string)
    requires e.Turn?
    ensures var r := C.Advance(None, None, e.m, e.geocode, e.now);
            var r' := C.Advance(Some(C.AwaitingLocation), Some(C.DEFAULT_CONTEXT), e.m, e.geocode, e.now);
            r.state == r'.state && Kept(r, draft) == Kept(r', draft)
  {
    if SendsPlace(e.m) {
      PlaceIsStaged(None, None, e.m, e.geocode, e.now);
      PlaceIsStaged(Some(C.AwaitingLocation), Some(C.DEFAULT_CONTEXT), e.m, e.geocode, e.now);
    } else {
      NoPlaceYet(None, None, e.m, e.geocode, e.now);
      NoPlaceYet(Some(C.AwaitingLocation), Some(C.DEFAULT_CONTEXT), e.m, e.geocode, e.now);
    }
  }

  // ----- every run -----

  ghost predicate AllBacked(es: seq<Event>, convs: seq<Conv>) {
    forall k :: 0 <= k < |convs| ==> Backed(es, convs[k].contact, convs[k].state, convs[k].context)
  }

  /** Whether conversations are switched on or off is not at issue. */
  ghost predicate SameTalk(convs: seq<Conv>, convs': seq<Conv>) {
    && |convs'| == |convs|
    && forall k :: 0 <= k < |convs| ==>
         convs'[k].contact == convs[k].contact && convs'[k].state == convs[k].state && convs'[k].context == convs[k].context
  }

  lemma SameTalkIsBacked(es: seq<Event>, e: Event, convs: seq<Conv>, convs': seq<Conv>)
    requires AllBacked(es, convs) && SameTalk(convs, convs')
    ensures AllBacked(es + [e], convs')
  {
    forall k | 0 <= k < |convs| ensures Backed(es + [e], convs'[k].contact, convs'[k].state, convs'[k].context) {
      StillBacked(es, e, convs[k].contact, convs[k].state, convs[k].context);
    }
  }

  /** Each turn finds one conversation, or none. */
  lemma SomethingIsFound(db: Db, contact: nat, now: Time) returns (i: Option<nat>)
    requires DbOk(db)
    ensures Finds(db.convs, contact, now, i)
  {
    i := LockedConversation(db.convs, contact, now).1;
    LockFinds(db.convs, contact, now, i);
  }

  lemma WrittenIsBacked(db: Db, es: seq<Event>, e: Event, i: Option<nat>, convs: seq<Conv>, r: C.Result)
    requires e.Turn? && (i.Some? ==> i.value < |db.convs|) && AllBacked(es, db.convs)
    requires ConversationWritten(db, convs, e, i, r) && Backed(es + [e], e.m.contact, r.state, Kept(r, e.grievance))
    ensures AllBacked(es + [e], convs)
  {
    forall k | 0 <= k < |convs| ensures Backed(es + [e], convs[k].contact, convs[k].state, convs[k].context) {
      if k < |db.convs| {
        StillBacked(es, e, db.convs[k].contact, db.convs[k].state, db.convs[k].context);
      }
    }
  }

  lemma ConversingIsBacked(db: Db, es: seq<Event>, e: Event, i: Option<nat>)
    requires DbOk(db) && AllBacked(es, db.convs) && Converses(db, e, i)
    ensures AllBacked(es + [e], Step(db, e).convs)
  {
    TurnWritesConversation(db, e, i);
    match i {
      case None => FirstTurnIsBacked(es, e.m.contact, e, e.grievance);
      case Some(k) => TurnIsBacked(es, e.m.contact, db.convs[k].state, db.convs[k].context, e, e.grievance);
    }
    WrittenIsBacked(db, es, e, i, Step(db, e).convs, AnswerTo(db, i, e));
  }

  lemma FollowUpIsBacked(db: Db, es: seq<Event>, e: Event)
    requires DbOk(db) && AllBacked(es, db.convs) && e.FollowUp?
    ensures AllBacked(es + [e], Step(db, e).convs)
  {
    var i := SomethingIsFound(db, e.contact, e.now);
    FollowUpWrites(db, e, i);
    if Step(db, e).convs == db.convs {
      SameTalkIsBacked(es, e, db.convs, db.convs);
    } else {
      OverwrittenIsBacked(es, e, db.convs, i.value, Step(db, e).convs[i.value].state);
    }
  }

  lemma OverwrittenIsBacked(es: seq<Event>, e: Event, convs: seq<Conv>, k: nat, s: C.State)
    requires AllBacked(es, convs) && k < |convs| && s in {C.PhotoMismatch, C.AwaitingConfirmation}
    ensures AllBacked(es + [e], convs[k := convs[k].(state := s)])
  {
    SameTalkIsBacked(es, e, convs, convs);
  }

  lemma StepIsBacked(db: Db, es: seq<Event>, e: Event)
    requires DbOk(db) && AllBacked(es, db.convs)
    ensures AllBacked(es + [e], Step(db, e).convs)
  {
    if e.FollowUp? {
      FollowUpIsBacked(db, es, e);
    } else if !Lands(db, e) {
      SameTalkIsBacked(es, e, db.convs, Step(db, e).convs);
    } else if AnswersLogin(e.m) || SendsCode(e.m) {
      InterceptedWrites(db, e);
      SameTalkIsBacked(es, e, db.convs, Step(db, e).convs);
    } else {
      var i := SomethingIsFound(db, e.m.contact, e.now);
      if i == None && AsksStatus(e.m) {
        StatusWrites(db, e);
        SameTalkIsBacked(es, e, db.convs, Step(db, e).convs);
      } else {
        ConversingIsBacked(db, es, e, i);
      }
    }
  }

  function Recorded(history: seq<Event>, e: Event): seq<Event> { history + [e] }

  lemma {:induction false} AllIsRecorded(es: seq<Event>)
    ensures Run(Recorded, [], es) == es
    decreases |es|
  {
    if es != [] {
      AllIsRecorded(es[..|es| - 1]);
    }
  }

  ghost predicate HoldsWhatWasSent(db: Db, history: seq<Event>) { DbOk(db) && AllBacked(history, db.convs) }

  /**
   In every run a conversation holds what its contact sent: on its card a place the contact sent, once confirmed a
   place the contact sent and said Yes to, and only messages and pictures of that contact.
   */
  lemma ConversationsHoldWhatWasSent(db: Db, es: seq<Event>)
    requires Initial(db)
    ensures HoldsWhatWasSent(Run(Step, db, es), es)
  {
    forall d, history, e | HoldsWhatWasSent(d, history) && Any(d, e)
      ensures HoldsWhatWasSent(Step(d, e), Recorded(history, e))
    {
      StepIsBacked(d, history, e);
      StepKeepsOk(d, e);
    }
    AnythingAllowed(Step, db, es);
    Simulation(Step, Any, Recorded, HoldsWhatWasSent, db, [], es);
    AllIsRecorded(es);
  }

  // ----- the complaint -----

  /** Every draft gets an id of its own. */
  predicate NewDraftId(db: Db, e: Event) {
    e.Turn? ==> forall g :: 0 <= g < |db.grievances| ==> db.grievances[g].id != e.grievance
  }

  /** The complaint of conversation `k` says what the conversation says. */
  ghost predicate Mirrors(g: Grievance, convs: seq<Conv>) {
    && g.conversation.Some? && g.conversation.value < |convs|
    && var conv := convs[g.conversation.value];
       && g.contact == conv.contact && conv.context.draft.grievance == Some(g.id)
       && g.location == conv.context.location && g.messages == conv.context.issue.messages
       && g.photo == conv.context.photo.mediaId
  }

  ghost predicate IdsDiffer(grievances: seq<Grievance>) {
    forall g, h :: 0 <= g < h < |grievances| ==> grievances[g].id != grievances[h].id
  }

  /** A conversation that names a complaint is the one that the complaint names. */
  ghost predicate NamesItsOwn(db: Db, k: nat)
    requires k < |db.convs|
  {
    db.convs[k].context.draft.grievance.Some? ==>
      C.Rank(db.convs[k].state) >= 3 && exists g :: 0 <= g < |db.grievances| && db.grievances[g].conversation == Some(k)
  }

  /** Every complaint mirrors its conversation, and the conversations name no others. */
  ghost predicate AllMirror(db: Db) {
    && IdsDiffer(db.grievances)
    && (forall g :: 0 <= g < |db.grievances| ==> Mirrors(db.grievances[g], db.convs))
    && (forall k :: 0 <= k < |db.convs| ==> NamesItsOwn(db, k))
  }

  lemma LateTurn(s: C.State, c: C.Context, e: Event)
    requires e.Turn? && C.Rank(s) >= 3
    ensures var r := C.Advance(Some(s), Some(c), e.m, e.geocode, e.now);
      && r.action != C.StartPipeline && C.Rank(r.state) >= 3
      && r.context.location == c.location && r.context.issue == c.issue
      && r.context.draft.grievance == c.draft.grievance
      && (r.action != C.RecheckPhoto ==> r.context.photo == c.photo)
  {
  }

  lemma EarlyTurn(s: Option<C.State>, c: Option<C.Context>, e: Event)
    requires e.Turn? && (s == None <==> c == None) && (s.Some? ==> C.Rank(s.value) < 3)
    ensures var r := C.Advance(s, c, e.m, e.geocode, e.now);
      && r.action in {C.Nothing, C.StartPipeline} && (r.action == C.StartPipeline ==> C.Rank(r.state) >= 3)
      && r.context.draft.grievance == if c == None then None else c.value.draft.grievance
  {
  }

  /** Complaints of other conversations are not concerned. */
  lemma OthersMirror(db: Db, convs: seq<Conv>, e: Event, i: Option<nat>, r: C.Result, g: nat)
    requires e.Turn? && (i.Some? ==> i.value < |db.convs|) && ConversationWritten(db, convs, e, i, r)
    requires g < |db.grievances| && Mirrors(db.grievances[g], db.convs) && db.grievances[g].conversation != i
    ensures Mirrors(db.grievances[g], convs)
  {
  }

  /** A conversation that has no complaint names none. */
  lemma NoComplaintNoName(db: Db, k: nat, g: nat)
    requires AllMirror(db) && k < |db.convs| && g < |db.grievances| && db.grievances[g].conversation == Some(k)
    ensures db.convs[k].context.draft.grievance == Some(db.grievances[g].id) && C.Rank(db.convs[k].state) >= 3
  {
    assert Mirrors(db.grievances[g], db.convs) && NamesItsOwn(db, k);
  }

  /** The complaint that goes by the id a conversation names is its own. */
  lemma NamedIsOwn(db: Db, k: nat, g: nat)
    requires AllMirror(db) && k < |db.convs| && GoesBy(db.grievances, db.convs[k].context.draft.grievance, g)
    ensures db.grievances[g].conversation == Some(k)
  {
    assert NamesItsOwn(db, k);
    var h :| 0 <= h < |db.grievances| && db.grievances[h].conversation == Some(k);
    NoComplaintNoName(db, k, h);
    assert db.grievances[h].id == db.grievances[g].id;
  }

  /** A late turn: its own complaint goes along with it. */
  lemma LateTurnMirrors(db: Db, db': Db, e: Event, k: nat, r: C.Result)
    requires AllMirror(db) && e.Turn? && k < |db.convs| && C.Rank(db.convs[k].state) >= 3
    requires r == AnswerTo(db, Some(k), e)
    requires ConversationWritten(db, db'.convs, e, Some(k), r) && ComplaintsWritten(db, db'.grievances, e, Some(k), r)
    requires db.convs[k].contact == e.m.contact
    ensures AllMirror(db')
  {
    LateTurn(db.convs[k].state, db.convs[k].context, e);
    if r.action == C.RecheckPhoto {
      var g: nat :| GoesBy(db.grievances, r.context.draft.grievance, g)
        && db'.grievances == db.grievances[g := db.grievances[g].(photo := r.context.photo.mediaId)];
      NamedIsOwn(db, k, g);
      PhotoReplaced(db, db', e, k, r, g);
    } else {
      forall g | 0 <= g < |db.grievances| ensures Mirrors(db.grievances[g], db'.convs) {
        if db.grievances[g].conversation != Some(k) { OthersMirror(db, db'.convs, e, Some(k), r, g); }
      }
      NamesStay(db, db', e, Some(k), r);
    }
  }

  lemma PhotoReplaced(db: Db, db': Db, e: Event, k: nat, r: C.Result, g: nat)
    requires AllMirror(db) && e.Turn? && k < |db.convs| && g < |db.grievances| && db.grievances[g].conversation == Some(k)
    requires ConversationWritten(db, db'.convs, e, Some(k), r) && db.convs[k].contact == e.m.contact
    requires db'.grievances == db.grievances[g := db.grievances[g].(photo := r.context.photo.mediaId)]
    requires r.action == C.RecheckPhoto && C.Rank(r.state) >= 3
    requires r.context.location == db.convs[k].context.location && r.context.issue == db.convs[k].context.issue
    requires r.context.draft.grievance == db.convs[k].context.draft.grievance
    ensures AllMirror(db')
  {
    forall h | 0 <= h < |db.grievances| ensures Mirrors(db'.grievances[h], db'.convs) {
      assert Mirrors(db.grievances[h], db.convs);
      if db.grievances[h].conversation == Some(k) {
        NoComplaintNoName(db, k, h);
        NoComplaintNoName(db, k, g);
        assert h == g;
      } else {
        OthersMirror(db, db'.convs, e, Some(k), r, h);
      }
    }
    forall j | 0 <= j < |db'.convs| ensures NamesItsOwn(db', j) {
      assert NamesItsOwn(db, j);
      if db'.convs[j].context.draft.grievance.Some? {
        var h :| 0 <= h < |db.grievances| && db.grievances[h].conversation == Some(j);
        assert db'.grievances[h].conversation == Some(j);
      }
    }
  }

  /** No complaint is added, and nobody names another than before. */
  lemma NamesStay(db: Db, db': Db, e: Event, i: Option<nat>, r: C.Result)
    requires AllMirror(db) && e.Turn? && (i.Some? ==> i.value < |db.convs|) && db'.grievances == db.grievances
    requires ConversationWritten(db, db'.convs, e, i, r) && r.action != C.StartPipeline
    requires r.context.draft.grievance == if i.Some? then db.convs[i.value].context.draft.grievance else None
    requires i.Some? && C.Rank(db.convs[i.value].state) >= 3 ==> C.Rank(r.state) >= 3
    ensures forall j :: 0 <= j < |db'.convs| ==> NamesItsOwn(db', j)
  {
    forall j | 0 <= j < |db'.convs| ensures NamesItsOwn(db', j) {
      if j < |db.convs| { assert NamesItsOwn(db, j); }
    }
  }

  /** An early turn: its conversation has no complaint yet, and gets one exactly with the start of the pipeline. */
  lemma EarlyTurnMirrors(db: Db, db': Db, e: Event, i: Option<nat>, r: C.Result)
    requires AllMirror(db) && e.Turn? && NewDraftId(db, e)
    requires i.Some? ==> i.value < |db.convs| && C.Rank(db.convs[i.value].state) < 3
    requires r == AnswerTo(db, i, e)
    requires ConversationWritten(db, db'.convs, e, i, r) && ComplaintsWritten(db, db'.grievances, e, i, r)
    ensures AllMirror(db')
  {
    if i.Some? { assert NamesItsOwn(db, i.value); }
    EarlyTurn(if i.Some? then Some(db.convs[i.value].state) else None,
              if i.Some? then Some(db.convs[i.value].context) else None, e);
    forall g | 0 <= g < |db.grievances| ensures Mirrors(db.grievances[g], db'.convs) {
      assert Mirrors(db.grievances[g], db.convs);
      if i.Some? && db.grievances[g].conversation == i { NoComplaintNoName(db, i.value, g); }
      OthersMirror(db, db'.convs, e, i, r, g);
    }
    if r.action == C.StartPipeline {
      DraftMirrors(db, db', e, i.value, r);
    } else {
      NamesStay(db, db', e, i, r);
    }
  }

  lemma DraftMirrors(db: Db, db': Db, e: Event, k: nat, r: C.Result)
    requires AllMirror(db) && e.Turn? && NewDraftId(db, e) && k < |db.convs| && r.action == C.StartPipeline
    requires ConversationWritten(db, db'.convs, e, Some(k), r) && C.Rank(r.state) >= 3
    requires ComplaintsWritten(db, db'.grievances, e, Some(k), r)
    requires forall g :: 0 <= g < |db.grievances| ==> Mirrors(db.grievances[g], db'.convs)
    ensures AllMirror(db')
  {
    var n := |db.grievances|;
    assert Mirrors(db'.grievances[n], db'.convs);
    forall j | 0 <= j < |db'.convs| ensures NamesItsOwn(db', j) {
      if j == k {
        assert db'.grievances[n].conversation == Some(k);
      } else {
        assert NamesItsOwn(db, j);
        if db'.convs[j].context.draft.grievance.Some? {
          var h :| 0 <= h < |db.grievances| && db.grievances[h].conversation == Some(j);
          assert db'.grievances[h].conversation == Some(j);
        }
      }
    }
  }

  /** Contexts and complaints stay as they are, and late conversations late. */
  lemma SameMirrors(db: Db, db': Db)
    requires AllMirror(db) && db'.grievances == db.grievances && |db'.convs| == |db.convs|
    requires forall k :: 0 <= k < |db.convs| ==>
      && db'.convs[k].contact == db.convs[k].contact && db'.convs[k].context == db.convs[k].context
      && (C.Rank(db.convs[k].state) >= 3 ==> C.Rank(db'.convs[k].state) >= 3)
    ensures AllMirror(db')
  {
    forall g | 0 <= g < |db.grievances| ensures Mirrors(db'.grievances[g], db'.convs) {
      assert Mirrors(db.grievances[g], db.convs);
    }
    forall k | 0 <= k < |db.convs| ensures NamesItsOwn(db', k) { assert NamesItsOwn(db, k); }
  }

  lemma ConversingMirrors(db: Db, e: Event, i: Option<nat>)
    requires DbOk(db) && AllMirror(db) && NewDraftId(db, e) && Converses(db, e, i)
    ensures AllMirror(Step(db, e))
  {
    TurnWritesConversation(db, e, i);
    TurnWritesComplaint(db, e, i);
    if i.Some? && C.Rank(db.convs[i.value].state) >= 3 {
      LateTurnMirrors(db, Step(db, e), e, i.value, AnswerTo(db, i, e));
    } else {
      EarlyTurnMirrors(db, Step(db, e), e, i, AnswerTo(db, i, e));
    }
  }

  lemma FollowUpMirrors(db: Db, e: Event)
    requires DbOk(db) && AllMirror(db) && e.FollowUp?
    ensures AllMirror(Step(db, e))
  {
    var i := SomethingIsFound(db, e.contact, e.now);
    FollowUpWrites(db, e, i);
    SameMirrors(db, Step(db, e));
  }

  lemma StepMirrors(db: Db, e: Event)
    requires DbOk(db) && AllMirror(db) && NewDraftId(db, e)
    ensures AllMirror(Step(db, e))
  {
    if e.FollowUp? {
      FollowUpMirrors(db, e);
    } else if !Lands(db, e) {
      SameMirrors(db, Step(db, e));
    } else if AnswersLogin(e.m) || SendsCode(e.m) {
      InterceptedWrites(db, e);
      SameMirrors(db, Step(db, e));
    } else {
      var i := SomethingIsFound(db, e.m.contact, e.now);
      if i == None && AsksStatus(e.m) {
        StatusWrites(db, e);
        SameMirrors(db, Step(db, e));
      } else {
        ConversingMirrors(db, e, i);
      }
    }
  }

  ghost predicate Mirrored(db: Db) { DbOk(db) && AllMirror(db) }

  lemma StepKeepsMirrored(db: Db, e: Event)
    requires Mirrored(db) && NewDraftId(db, e)
    ensures Mirrored(Step(db, e))
  {
    StepMirrors(db, e);
    StepKeepsOk(db, e);
  }

  lemma RunMirrors(db: Db, es: seq<Event>)
    requires Mirrored(db) && Allowed(Step, NewDraftId, db, es)
    ensures Mirrored(Run(Step, db, es))
  {
    forall d, e | Mirrored(d) && NewDraftId(d, e) ensures Mirrored(Step(d, e)) { StepKeepsMirrored(d, e); }
    Invariance(Step, NewDraftId, Mirrored, db, es);
  }

  /** Place, issue and photo of a complaint are what its contact sent. */
  ghost predicate IsWhatWasSent(es: seq<Event>, g: Grievance) {
    && WasConfirmed(es, g.contact, g.location)
    && (forall n :: 0 <= n < |g.messages| ==> WasTold(es, g.contact, g.messages[n]))
    && (g.photo.Some? ==> WasPictured(es, g.contact, g.photo.value))
  }

  /** Every complaint agrees with the conversation it was drafted in, and both are what the contact sent. */
  ghost predicate ComplaintsAgree(db: Db, es: seq<Event>) {
    forall g :: 0 <= g < |db.grievances| ==> Mirrors(db.grievances[g], db.convs) && IsWhatWasSent(es, db.grievances[g])
  }

  lemma MirroredIsSent(db: Db, es: seq<Event>)
    requires Mirrored(db) && HoldsWhatWasSent(db, es)
    ensures ComplaintsAgree(db, es)
  {
    forall g | 0 <= g < |db.grievances| ensures IsWhatWasSent(es, db.grievances[g]) {
      assert Mirrors(db.grievances[g], db.convs);
      var conv := db.convs[db.grievances[g].conversation.value];
      assert Backed(es, conv.contact, conv.state, conv.context);
    }
  }

  lemma NothingFiledYet(db: Db)
    requires Initial(db)
    ensures Mirrored(db)
  {
  }

  /**
   In every run in which drafts get ids of their own, every complaint agrees with the conversation it was drafted
   in; its place is one its contact sent and said Yes to, its messages and its photo are ones its contact sent.
   */
  lemma ComplaintsAreWhatWasSent(db: Db, es: seq<Event>)
    requires Initial(db) && Allowed(Step, NewDraftId, db, es)
    ensures ComplaintsAgree(Run(Step, db, es), es)
  {
    NothingFiledYet(db);
    RunMirrors(db, es);
    ConversationsHoldWhatWasSent(db, es);
    MirroredIsSent(Run(Step, db, es), es);
  }
}
