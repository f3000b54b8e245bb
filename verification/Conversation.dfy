/**
 The guided conversation: location, issue, photo, confirmation.  `Advance` is the pure transition
 function; what the driver adds - the draft's id, the pipeline's follow-up - comes after it.  Message
 wording is not modelled: of a reply only its kind and its button ids matter.
 */
module Conversation {
  import opened Wrappers
  import opened Clock
  import opened ButtonIds
  import opened Runs

  datatype State =
    | AwaitingLocation | ConfirmingLocation | AwaitingIssue | AwaitingPhoto
    | Processing | PhotoMismatch | AwaitingConfirmation | Done | Expired | Unknown(name: string)

  const CONFIRM_YES_ID := "loc_confirm_yes"
  const CONFIRM_NO_ID := "loc_confirm_no"
  const ISSUE_DONE_ID := "issue_done"
  const PHOTO_SHARE_ID := "photo_share"
  const PHOTO_SKIP_ID := "photo_skip"
  const PHOTO_CONTINUE_ID := "photo_continue"
  const CONFIRM_GRV_YES_ID := "grv_confirm"
  const CONFIRM_GRV_NO_ID := "grv_cancel"
  const ISSUE_CONTENT_TYPES := {"text", "audio", "voice", "image", "video", "document"}

  datatype Coords = Coords(lat: real, lon: real)
  datatype Geocode = Geocode(address: Option<string>, status: string)

  /** An incoming message; the last two fields are the verdicts of the two text predicates. */
  datatype Inbound = Inbound(id: string, contact: nat, kind: string, coords: Option<Coords>,
                             text: Option<string>, mediaId: Option<string>, mime: Option<string>,
                             replyId: Option<string>, contextId: Option<string>, receivedAt: Time,
                             isCode: bool, isStatusQuery: bool)

  datatype Location = Location(coords: Option<Coords>, address: Option<string>, source: Option<string>,
                               geocodeStatus: Option<string>, confirmedAt: Option<Time>)
  datatype IssueMessage = IssueMessage(id: string, receivedAt: Time, kind: string, text: Option<string>,
                                       mediaId: Option<string>, mime: Option<string>)
  datatype Issue = Issue(messages: seq<IssueMessage>, source: Option<string>)
  datatype Photo = Photo(mediaId: Option<string>, mime: Option<string>, skipped: Option<bool>)
  datatype Draft = Draft(grievance: Option<string>, rechecks: nat)
  datatype Context = Context(location: Location, issue: Issue, photo: Photo, draft: Draft)

  const NO_LOCATION := Location(None, None, None, None, None)
  const DEFAULT_CONTEXT := Context(NO_LOCATION, Issue([], None), Photo(None, None, None), Draft(None, 0))

  datatype Action = Nothing | StartPipeline | RecheckPhoto | ProceedWithoutPhoto | Finalize | Cancel
  datatype Intent = Intent(kind: string, buttons: seq<string>)
  datatype Result = Result(state: State, context: Context, intents: seq<Intent>, action: Action, close: bool)

  function Stay(state: State, context: Context, intents: seq<Intent>): Result {
    Result(state, context, intents, Nothing, false)
  }

  predicate IsLocation(m: Inbound) { m.kind == "location" && m.coords.Some? }

  predicate HasPhoto(m: Inbound) { m.kind == "image" && m.mediaId.Some? && m.mediaId.value != "" }

  function LocationCard(token: string): Intent {
    Intent("confirm_location", [ConfirmId(CONFIRM_YES_ID, token), ConfirmId(CONFIRM_NO_ID, token)])
  }

  /** The Yes/No card of a location carries that location's message id as its token. */
  function Stage(context: Context, m: Inbound, geocode: Option<Geocode>): Result {
    var location := context.location.(
      coords := m.coords,
      address := if geocode.Some? then geocode.value.address else None,
      source := Some(m.id),
      geocodeStatus := if geocode.Some? then Some(geocode.value.status) else None,
      confirmedAt := None);
    Stay(ConfirmingLocation, context.(location := location), [LocationCard(m.id)])
  }

  function PhotoPrompt(): Intent { Intent("photo_prompt", [PHOTO_SHARE_ID, PHOTO_SKIP_ID]) }

  function MismatchPrompt(): Intent { Intent("image_mismatch", [PHOTO_SHARE_ID, PHOTO_CONTINUE_ID]) }

  function ProcessingWait(context: Context, action: Action): Result {
    Result(Processing, context, [Intent("processing_wait", [])], action, false)
  }

  function IssueEntry(m: Inbound): IssueMessage {
    IssueMessage(m.id, m.receivedAt, m.kind, m.text, m.mediaId, m.mime)
  }

  function Advance(state: Option<State>, context0: Option<Context>, m: Inbound,
                   geocode: Option<Geocode>, now: Time): Result {
    var context := if context0.Some? then context0.value else DEFAULT_CONTEXT;
    var (base, token) := ParseConfirmReply(m.replyId);
    if state.None? || state.value == Expired then
      if IsLocation(m) then Stage(context, m, geocode)
      else Stay(AwaitingLocation, context, [Intent("greeting_location", [])])
    else match state.value
      case AwaitingLocation =>
        if IsLocation(m) then Stage(context, m, geocode)
        else Stay(AwaitingLocation, context, [Intent("location_reprompt", [])])
      case ConfirmingLocation =>
        var staged := context.location.source;
        if IsLocation(m) then Stage(context, m, geocode)
        else if token == staged && base == Some(CONFIRM_YES_ID) then
          Stay(AwaitingIssue, context.(location := context.location.(confirmedAt := Some(now))),
               [Intent("ask_issue", [ISSUE_DONE_ID])])
        else if token == staged && base == Some(CONFIRM_NO_ID) then
          Stay(AwaitingLocation, context.(location := NO_LOCATION), [Intent("location_request", [])])
        else
          Stay(ConfirmingLocation, context, [LocationCard(if staged.Some? then staged.value else "None")])
      case AwaitingIssue =>
        var issue := context.issue;
        if base == Some(ISSUE_DONE_ID) then
          if issue.messages == [] then Stay(AwaitingIssue, context, [Intent("issue_empty", [])])
          else Stay(AwaitingPhoto, context, [PhotoPrompt()])
        else if m.kind in ISSUE_CONTENT_TYPES then
          Stay(AwaitingIssue,
               context.(issue := Issue(issue.messages + [IssueEntry(m)],
                                       if issue.source.None? then Some(m.id) else issue.source)),
               [])
        else Stay(AwaitingIssue, context, [])
      case AwaitingPhoto =>
        if HasPhoto(m) then
          ProcessingWait(context.(photo := Photo(m.mediaId, m.mime, Some(false))), StartPipeline)
        else if base == Some(PHOTO_SKIP_ID) then
          ProcessingWait(context.(photo := Photo(None, None, Some(true))), StartPipeline)
        else if base == Some(PHOTO_SHARE_ID) then
          Stay(AwaitingPhoto, context, [Intent("photo_instruction", [])])
        else Stay(AwaitingPhoto, context, [PhotoPrompt()])
      case Processing => Stay(Processing, context, [Intent("still_processing", [])])
      case PhotoMismatch =>
        if HasPhoto(m) then
          ProcessingWait(context.(photo := Photo(m.mediaId, m.mime, Some(false)),
                                  draft := context.draft.(rechecks := context.draft.rechecks + 1)),
                         RecheckPhoto)
        else if base == Some(PHOTO_CONTINUE_ID) then ProcessingWait(context, ProceedWithoutPhoto)
        else Stay(PhotoMismatch, context, [MismatchPrompt()])
      case AwaitingConfirmation =>
        var draft := context.draft.grievance;
        if token == draft && base == Some(CONFIRM_GRV_YES_ID) then Result(Done, context, [], Finalize, true)
        else if token == draft && base == Some(CONFIRM_GRV_NO_ID) then Result(Done, context, [], Cancel, true)
        else Stay(AwaitingConfirmation, context, [])
      case _ => Stay(state.value, context, [])
  }

  /** The driver writes the id of the draft it has just registered into the context. */
  function Settled(r: Result, grievance: string): Context {
    if r.action == StartPipeline
    then r.context.(draft := r.context.draft.(grievance := Some(grievance)))
    else r.context
  }

  datatype PipelineStatus = PipelineMismatch | PipelineReady

  /** The follow-up overwrites the state of the conversation it finds. */
  function FollowUpState(status: PipelineStatus): State {
    if status == PipelineMismatch then PhotoMismatch else AwaitingConfirmation
  }

  function FollowUpIntent(status: PipelineStatus, grievance: string): Intent {
    if status == PipelineMismatch then MismatchPrompt()
    else Intent("pdf_confirm", [ConfirmId(CONFIRM_GRV_YES_ID, grievance), ConfirmId(CONFIRM_GRV_NO_ID, grievance)])
  }

  // ----- what every reachable conversation looks like -----

  function Rank(s: State): nat {
    match s
    case AwaitingLocation | ConfirmingLocation | Expired | Unknown(_) => 0
    case AwaitingIssue => 1
    case AwaitingPhoto => 2
    case Processing | PhotoMismatch => 3
    case AwaitingConfirmation => 4
    case Done => 5
  }

  /** Each stage has what the stages before it collected, and nothing of what comes later. */
  ghost predicate Ok(s: State, c: Context) {
    && !s.Expired? && !s.Unknown?
    && (s == ConfirmingLocation ==> c.location.source.Some? && c.location.coords.Some?)
    && (Rank(s) >= 1 <==> c.location.confirmedAt.Some?)
    && (Rank(s) >= 1 ==> c.location.source.Some? && c.location.coords.Some?)
    && (Rank(s) < 1 ==> c.issue.messages == [])
    && (Rank(s) >= 2 ==> c.issue.messages != [])
    && (Rank(s) >= 3 <==> c.draft.grievance.Some?)
    && (Rank(s) >= 3 <==> c.photo.skipped.Some?)
  }

  /**
   One turn keeps the stages in order: the conversation never goes back, nothing collected is lost,
   the confirmed location and the draft's id never change, and side effects happen only at the
   one border each belongs to.
   */
  lemma TurnKeepsOrder(s: State, c: Context, m: Inbound, geocode: Option<Geocode>, now: Time, grievance: string)
    requires Ok(s, c)
    ensures var r := Advance(Some(s), Some(c), m, geocode, now);
            var c' := Settled(r, grievance);
            && Ok(r.state, c')
            && Rank(s) <= Rank(r.state)
            && (Rank(s) >= 1 ==> c'.location == c.location)
            && (Rank(s) == 0 && m.kind == "location" && m.coords.Some? ==>
                  c'.location.coords == m.coords && c'.location.source == Some(m.id) && c'.location.confirmedAt == None)
            && c.issue.messages <= c'.issue.messages
            && (Rank(s) >= 2 ==> c'.issue == c.issue)
            && (Rank(s) >= 3 ==> c'.draft.grievance == c.draft.grievance)
            && (r.action == StartPipeline <==> Rank(s) < 3 <= Rank(r.state))
            && (r.close <==> r.action in {Finalize, Cancel})
            && (r.close <==> Rank(s) < 5 == Rank(r.state))
            && (r.action in {RecheckPhoto, ProceedWithoutPhoto} <==> s == PhotoMismatch && r.state == Processing)
  {
    TurnKeepsStages(s, c, m, geocode, now, grievance);
    TurnKeepsWhatWasCollected(s, c, m, geocode, now, grievance);
    ActionsMarkTheBorders(s, c, m, geocode, now);
  }

  lemma TurnKeepsStages(s: State, c: Context, m: Inbound, geocode: Option<Geocode>, now: Time, grievance: string)
    requires Ok(s, c)
    ensures var r := Advance(Some(s), Some(c), m, geocode, now);
            Ok(r.state, Settled(r, grievance)) && Rank(s) <= Rank(r.state)
  {
  }

  lemma TurnKeepsWhatWasCollected(s: State, c: Context, m: Inbound, geocode: Option<Geocode>, now: Time,
                                  grievance: string)
    requires Ok(s, c)
    ensures var c' := Settled(Advance(Some(s), Some(c), m, geocode, now), grievance);
            && (Rank(s) >= 1 ==> c'.location == c.location)
            && (Rank(s) == 0 && m.kind == "location" && m.coords.Some? ==>
                  c'.location.coords == m.coords && c'.location.source == Some(m.id) && c'.location.confirmedAt == None)
            && c.issue.messages <= c'.issue.messages
            && (Rank(s) >= 2 ==> c'.issue == c.issue)
            && (Rank(s) >= 3 ==> c'.draft.grievance == c.draft.grievance)
  {
  }

  lemma ActionsMarkTheBorders(s: State, c: Context, m: Inbound, geocode: Option<Geocode>, now: Time)
    requires Ok(s, c)
    ensures var r := Advance(Some(s), Some(c), m, geocode, now);
            && (r.action == StartPipeline <==> Rank(s) < 3 <= Rank(r.state))
            && (r.close <==> r.action in {Finalize, Cancel})
            && (r.close <==> Rank(s) < 5 == Rank(r.state))
            && (r.action in {RecheckPhoto, ProceedWithoutPhoto} <==> s == PhotoMismatch && r.state == Processing)
  {
  }

  lemma FirstTurnIsOk(m: Inbound, geocode: Option<Geocode>, now: Time, grievance: string)
    ensures var r := Advance(None, None, m, geocode, now);
            Ok(r.state, Settled(r, grievance)) && r.action == Nothing && !r.close && Rank(r.state) == 0
  {
  }

  /** A location is confirmed by exactly one button: the Yes of the card of the location last staged. */
  lemma OnlyTheLatestCardConfirms(c: Context, m: Inbound, geocode: Option<Geocode>, now: Time)
    requires Ok(ConfirmingLocation, c) && c.location.source.value != "" && !IsLocation(m)
    ensures var r := Advance(Some(ConfirmingLocation), Some(c), m, geocode, now);
            var token := c.location.source.value;
            && (r.state == AwaitingIssue <==> m.replyId == Some(ConfirmId(CONFIRM_YES_ID, token)))
            && (r.state == AwaitingLocation <==> m.replyId == Some(ConfirmId(CONFIRM_NO_ID, token)))
            && (r.state == ConfirmingLocation ==> r.context == c && r.intents == [LocationCard(token)])
  {
    ConfirmRoundTrip(CONFIRM_YES_ID, c.location.source.value, m.replyId);
    ConfirmRoundTrip(CONFIRM_NO_ID, c.location.source.value, m.replyId);
  }

  lemma LocationIsStaged(s: State, c: Context, m: Inbound, geocode: Option<Geocode>, now: Time)
    requires Ok(s, c) && Rank(s) == 0 && IsLocation(m)
    ensures Advance(Some(s), Some(c), m, geocode, now) == Stage(c, m, geocode)
    ensures Ok(ConfirmingLocation, Stage(c, m, geocode).context)
  {
  }

  /** So once a newer location is staged, the card shows that one, and the older card's buttons do nothing. */
  lemma OlderCardIsDead(s: State, c: Context, m1: Inbound, m2: Inbound, tap: Inbound,
                        geocode: Option<Geocode>, now: Time)
    requires Ok(s, c) && Rank(s) == 0 && IsLocation(m1) && IsLocation(m2) && !IsLocation(tap)
    requires m1.id != m2.id && m1.id != "" && m2.id != ""
    ensures var r1 := Advance(Some(s), Some(c), m1, geocode, now);
            var r2 := Advance(Some(r1.state), Some(r1.context), m2, geocode, now);
            && r1.intents == [LocationCard(m1.id)] && r2.intents == [LocationCard(m2.id)]
            && r2.context.location.coords == m2.coords && r2.context.location.source == Some(m2.id)
            && (tap.replyId in {Some(LocationCard(m1.id).buttons[0]), Some(LocationCard(m1.id).buttons[1])} ==>
                  Advance(Some(r2.state), Some(r2.context), tap, geocode, now)
                  == Stay(ConfirmingLocation, r2.context, [LocationCard(m2.id)]))
  {
    LocationIsStaged(s, c, m1, geocode, now);
    var r1 := Stage(c, m1, geocode);
    LocationIsStaged(r1.state, r1.context, m2, geocode, now);
    var r2 := Stage(r1.context, m2, geocode);
    OnlyTheLatestCardConfirms(r2.context, tap, geocode, now);
    ConfirmRoundTrip(CONFIRM_YES_ID, m1.id, tap.replyId);
    ConfirmRoundTrip(CONFIRM_YES_ID, m2.id, tap.replyId);
    ConfirmRoundTrip(CONFIRM_NO_ID, m1.id, tap.replyId);
    ConfirmRoundTrip(CONFIRM_NO_ID, m2.id, tap.replyId);
  }

  /** A complaint is filed or cancelled by exactly the two buttons that carry this draft's id. */
  lemma OnlyThisDraftsCardCloses(c: Context, m: Inbound, geocode: Option<Geocode>, now: Time)
    requires Ok(AwaitingConfirmation, c) && c.draft.grievance.value != ""
    ensures var r := Advance(Some(AwaitingConfirmation), Some(c), m, geocode, now);
            var card := FollowUpIntent(PipelineReady, c.draft.grievance.value);
            && (r.action == Finalize <==> m.replyId == Some(card.buttons[0]))
            && (r.action == Cancel <==> m.replyId == Some(card.buttons[1]))
            && (r.action == Nothing ==> r == Stay(AwaitingConfirmation, c, []))
  {
    ConfirmRoundTrip(CONFIRM_GRV_YES_ID, c.draft.grievance.value, m.replyId);
    ConfirmRoundTrip(CONFIRM_GRV_NO_ID, c.draft.grievance.value, m.replyId);
  }

  // ----- the follow-up -----

  /** The button of the follow-up's card that answers it: file without a photo that fits, or file. */
  function AnswerButton(status: PipelineStatus, about: string): string {
    if status == PipelineMismatch then PHOTO_CONTINUE_ID else ConfirmId(CONFIRM_GRV_YES_ID, about)
  }

  function AnswerAction(status: PipelineStatus): Action {
    if status == PipelineMismatch then ProceedWithoutPhoto else Finalize
  }

  /** Tapping the card's answer sets off its action, and on the complaint the follow-up is about. */
  ghost predicate CardActsOn(c: Context, status: PipelineStatus, about: string) {
    forall tap: Inbound, now: Time :: tap.replyId == Some(AnswerButton(status, about)) && !HasPhoto(tap) ==>
      var r := Advance(Some(FollowUpState(status)), Some(c), tap, None, now);
      r.action == AnswerAction(status) && r.context.draft.grievance == Some(about)
  }

  /** What a caller can check before writing: the conversation is waiting for this answer about this draft. */
  predicate FollowUpFits(s: State, c: Context, status: PipelineStatus, about: string) {
    && c.draft.grievance == Some(about)
    && (s in {Processing, PhotoMismatch} || (s == AwaitingConfirmation && status == PipelineReady))
  }

  /** An id without a colon answers as itself. */
  lemma BareButtons()
    ensures ParseConfirmReply(Some(PHOTO_CONTINUE_ID)) == (Some(PHOTO_CONTINUE_ID), None)
    ensures ParseConfirmReply(Some(PHOTO_SKIP_ID)) == (Some(PHOTO_SKIP_ID), None)
    ensures ParseConfirmReply(Some(ISSUE_DONE_ID)) == (Some(ISSUE_DONE_ID), None)
  {
    assert |PHOTO_CONTINUE_ID| == 14 && forall k :: 0 <= k < 14 ==> PHOTO_CONTINUE_ID[k] != ':';
    assert |PHOTO_SKIP_ID| == 10 && forall k :: 0 <= k < 10 ==> PHOTO_SKIP_ID[k] != ':';
    assert |ISSUE_DONE_ID| == 10 && forall k :: 0 <= k < 10 ==> ISSUE_DONE_ID[k] != ':';
    BareIdHasNoToken(PHOTO_CONTINUE_ID);
    BareIdHasNoToken(PHOTO_SKIP_ID);
    BareIdHasNoToken(ISSUE_DONE_ID);
  }

  lemma MismatchTap(c: Context, tap: Inbound, now: Time)
    requires !HasPhoto(tap) && ParseConfirmReply(tap.replyId) == (Some(PHOTO_CONTINUE_ID), None)
    ensures Advance(Some(PhotoMismatch), Some(c), tap, None, now) == ProcessingWait(c, ProceedWithoutPhoto)
  {
  }

  lemma ReadyTap(c: Context, tap: Inbound, now: Time, about: string)
    requires ParseConfirmReply(tap.replyId) == (Some(CONFIRM_GRV_YES_ID), Some(about))
    ensures var r := Advance(Some(AwaitingConfirmation), Some(c), tap, None, now);
            (r.action == Finalize <==> c.draft.grievance == Some(about)) && r.context == c
  {
  }

  /** What any tap of the answering button does. */
  lemma AnswerTapped(c: Context, status: PipelineStatus, about: string, tap: Inbound, now: Time)
    requires about != "" && tap.replyId == Some(AnswerButton(status, about)) && !HasPhoto(tap)
    ensures var r := Advance(Some(FollowUpState(status)), Some(c), tap, None, now);
            && r.context == c
            && (status == PipelineMismatch || c.draft.grievance == Some(about) <==> r.action == AnswerAction(status))
  {
    if status == PipelineMismatch {
      BareButtons();
      MismatchTap(c, tap, now);
    } else {
      ConfirmRoundTrip(CONFIRM_GRV_YES_ID, about, tap.replyId);
      ReadyTap(c, tap, now, about);
    }
  }

  lemma CardActsOnItsDraft(c: Context, status: PipelineStatus, about: string)
    requires about != ""
    ensures CardActsOn(c, status, about) <==> c.draft.grievance == Some(about)
  {
    if c.draft.grievance == Some(about) {
      forall tap: Inbound, now: Time | tap.replyId == Some(AnswerButton(status, about)) && !HasPhoto(tap)
        ensures var r := Advance(Some(FollowUpState(status)), Some(c), tap, None, now);
                r.action == AnswerAction(status) && r.context.draft.grievance == Some(about)
      {
        AnswerTapped(c, status, about, tap, now);
      }
    } else {
      CardOfAnother(c, status, about);
    }
  }

  lemma CardOfAnother(c: Context, status: PipelineStatus, about: string)
    requires about != "" && c.draft.grievance != Some(about)
    ensures !CardActsOn(c, status, about)
  {
    var tap := Inbound("tap", 0, "interactive", None, None, None, None, Some(AnswerButton(status, about)), None, 0,
                       false, false);
    NotAPhoto(tap);
    AnswerTapped(c, status, about, tap, 0);
    NotThatCard(c, status, about, tap, Advance(Some(FollowUpState(status)), Some(c), tap, None, 0));
  }

  lemma NotThatCard(c: Context, status: PipelineStatus, about: string, tap: Inbound, r: Result)
    requires tap.replyId == Some(AnswerButton(status, about)) && !HasPhoto(tap)
    requires r == Advance(Some(FollowUpState(status)), Some(c), tap, None, 0) && r.context.draft.grievance != Some(about)
    ensures !CardActsOn(c, status, about)
  {
  }

  lemma NotAPhoto(tap: Inbound)
    requires tap.mediaId.None?
    ensures !HasPhoto(tap)
  {
  }

  /**
   The follow-up writes its state onto whatever conversation is active.  Exactly when is that right: the
   stages keep what they need, the conversation does not go back, and the card that is sent acts on the
   complaint it is about?  A caller can look before writing.
   */
  lemma FollowUpIsRightExactlyWhenItFits(s: State, c: Context, status: PipelineStatus, about: string)
    requires Ok(s, c) && about != ""
    ensures Ok(FollowUpState(status), c) && Rank(s) <= Rank(FollowUpState(status)) && CardActsOn(c, status, about)
       <==> FollowUpFits(s, c, status, about)
  {
    CardActsOnItsDraft(c, status, about);
    StagesFit(s, c, status);
  }

  lemma StagesFit(s: State, c: Context, status: PipelineStatus)
    requires Ok(s, c)
    ensures Ok(FollowUpState(status), c) <==> c.draft.grievance.Some?
    ensures c.draft.grievance.Some? ==>
      (Rank(s) <= Rank(FollowUpState(status)) <==>
         s in {Processing, PhotoMismatch} || (s == AwaitingConfirmation && status == PipelineReady))
  {
  }

  /** Without a draft, a bare button without a token "finalizes" a complaint that does not exist. */
  lemma BareYesFinalizesNothing(c: Context, tap: Inbound, now: Time)
    requires c.draft.grievance.None? && tap.replyId == Some(CONFIRM_GRV_YES_ID)
    ensures var r := Advance(Some(FollowUpState(PipelineReady)), Some(c), tap, None, now);
            r.action == Finalize && r.close && r.context.draft.grievance.None?
  {
    BareYes();
    MatchingYesFinalizes(c, tap, now);
  }

  lemma BareYes()
    ensures ParseConfirmReply(Some(CONFIRM_GRV_YES_ID)) == (Some(CONFIRM_GRV_YES_ID), None)
  {
    assert |CONFIRM_GRV_YES_ID| == 11;
    assert forall k :: 0 <= k < 11 ==> CONFIRM_GRV_YES_ID[k] != ':';
    BareIdHasNoToken(CONFIRM_GRV_YES_ID);
  }

  lemma MatchingYesFinalizes(c: Context, tap: Inbound, now: Time)
    requires ParseConfirmReply(tap.replyId) == (Some(CONFIRM_GRV_YES_ID), c.draft.grievance)
    ensures Advance(Some(AwaitingConfirmation), Some(c), tap, None, now) == Result(Done, c, [], Finalize, true)
  {
  }

  // ----- whole conversations -----

  /** What moves a conversation: a message, or the pipeline's answer. */
  datatype Move =
    | Said(m: Inbound, geocode: Option<Geocode>, now: Time, grievance: string)
    | Answered(status: PipelineStatus, about: string)

  /** A conversation with a count of the side effects it has set off. */
  datatype Track = Track(state: State, context: Context, starts: nat, endings: nat)

  function MoveStep(t: Track, move: Move): Track {
    match move
    case Said(m, geocode, now, grievance) =>
      if t.state == Done then t
      else
        var r := Advance(Some(t.state), Some(t.context), m, geocode, now);
        Track(r.state, Settled(r, grievance),
              t.starts + (if r.action == StartPipeline then 1 else 0),
              t.endings + (if r.close then 1 else 0))
    case Answered(status, about) => t.(state := FollowUpState(status))
  }

  /** The pipeline's answer reaches the conversation that is waiting for it. */
  predicate AnswersInPlace(t: Track, move: Move) {
    move.Answered? ==> FollowUpFits(t.state, t.context, move.status, move.about)
  }

  ghost predicate TrackOk(t: Track) {
    && Ok(t.state, t.context)
    && t.starts == (if Rank(t.state) >= 3 then 1 else 0)
    && t.endings == (if t.state == Done then 1 else 0)
  }

  lemma MoveKeepsOrder(t: Track, move: Move)
    requires TrackOk(t) && AnswersInPlace(t, move)
    ensures var t' := MoveStep(t, move);
            && TrackOk(t')
            && Rank(t.state) <= Rank(t'.state)
            && t.context.issue.messages <= t'.context.issue.messages
            && (t.context.draft.grievance.Some? ==> t'.context.draft.grievance == t.context.draft.grievance)
            && (Rank(t.state) >= 1 ==> t'.context.location == t.context.location)
  {
    match move
    case Said(m, geocode, now, grievance) =>
      if t.state != Done { TurnKeepsOrder(t.state, t.context, m, geocode, now, grievance); }
    case Answered(_, _) =>
  }

  /**
   Over any continuation of a conversation: the pipeline is started at most once, the complaint is
   finalized or cancelled at most once, stages never go back, no issue message is lost or reordered,
   and the confirmed location and the draft's id, once there, never change.
   */
  lemma ConversationsMoveForward(t: Track, moves: seq<Move>)
    requires TrackOk(t) && Allowed(MoveStep, AnswersInPlace, t, moves)
    ensures var t' := Run(MoveStep, t, moves);
            && TrackOk(t') && t'.starts <= 1 && t'.endings <= 1
            && Rank(t.state) <= Rank(t'.state)
            && t.context.issue.messages <= t'.context.issue.messages
            && (t.context.draft.grievance.Some? ==> t'.context.draft.grievance == t.context.draft.grievance)
            && (Rank(t.state) >= 1 ==> t'.context.location == t.context.location)
  {
    var onward := (u: Track) =>
      && TrackOk(u)
      && Rank(t.state) <= Rank(u.state)
      && t.context.issue.messages <= u.context.issue.messages
      && (t.context.draft.grievance.Some? ==> u.context.draft.grievance == t.context.draft.grievance)
      && (Rank(t.state) >= 1 ==> u.context.location == t.context.location);
    forall u, move | onward(u) && AnswersInPlace(u, move) ensures onward(MoveStep(u, move)) {
      MoveKeepsOrder(u, move);
    }
    Invariance(MoveStep, AnswersInPlace, onward, t, moves);
  }

  /** The issue as the citizen sent it: the content messages, in order. */
  function Content(ms: seq<Inbound>): seq<IssueMessage> {
    if ms == [] then []
    else
      var m := ms[|ms| - 1];
      Content(ms[..|ms| - 1]) + if m.kind in ISSUE_CONTENT_TYPES then [IssueEntry(m)] else []
  }

  function Heard(ms: seq<Inbound>, now: Time): seq<Move> {
    seq(|ms|, i requires 0 <= i < |ms| => Said(ms[i], None, now, ""))
  }

  /** Until Done is tapped, the issue grows by exactly what is sent: every content message, in order, once. */
  lemma {:induction false} IssueIsWhatWasSent(t: Track, ms: seq<Inbound>, now: Time)
    requires t.state == AwaitingIssue
    requires forall i :: 0 <= i < |ms| ==> ParseConfirmReply(ms[i].replyId).0 != Some(ISSUE_DONE_ID)
    ensures var t' := Run(MoveStep, t, Heard(ms, now));
            Grown(t, t', ms)
    decreases |ms|
  {
    if ms != [] {
      var n := |ms| - 1;
      IssueIsWhatWasSent(t, ms[..n], now);
      assert Heard(ms, now)[..n] == Heard(ms[..n], now);
      OneMoreHeard(t, Run(MoveStep, t, Heard(ms[..n], now)), ms, now);
    }
  }

  /** The issue has grown by the content of these messages, and nothing else has changed that later stages need. */
  ghost predicate Grown(t: Track, t': Track, ms: seq<Inbound>) {
    && t'.state == AwaitingIssue
    && t'.context.issue.messages == t.context.issue.messages + Content(ms)
    && t'.context.location == t.context.location && t'.context.draft == t.context.draft
  }

  lemma OneMoreHeard(t: Track, u: Track, ms: seq<Inbound>, now: Time)
    requires ms != [] && Grown(t, u, ms[..|ms| - 1])
    requires ParseConfirmReply(ms[|ms| - 1].replyId).0 != Some(ISSUE_DONE_ID)
    ensures Grown(t, MoveStep(u, Said(ms[|ms| - 1], None, now, "")), ms)
  {
    MessageJoinsIssue(u, ms[|ms| - 1], now);
  }

  lemma MessageJoinsIssue(t: Track, m: Inbound, now: Time)
    requires t.state == AwaitingIssue && ParseConfirmReply(m.replyId).0 != Some(ISSUE_DONE_ID)
    ensures var t' := MoveStep(t, Said(m, None, now, ""));
            && t'.state == AwaitingIssue && t'.context.location == t.context.location
            && t'.context.draft == t.context.draft
            && t'.context.issue.messages
               == t.context.issue.messages + if m.kind in ISSUE_CONTENT_TYPES then [IssueEntry(m)] else []
  {
  }
}
