/**
 What a conversation holds, told from what was said in it.  First one turn at a time, by the button tapped or the
 message sent; then over whole conversations.
 */
module Story {
  import opened Wrappers
  import opened Clock
  import opened Runs
  import opened ButtonIds
  import opened Conversation

  /** The message is a tap on the button, whatever token the button carries. */
  ghost predicate Taps(m: Inbound, button: string) {
    m.replyId.Some? && (m.replyId.value == button || button + ":" <= m.replyId.value)
  }

  lemma TapsIsTheBase(m: Inbound, button: string)
    requires button != "" && ':' !in button
    ensures ParseConfirmReply(m.replyId).0 == Some(button) <==> Taps(m, button)
  {
    if m.replyId.Some? {
      var s := m.replyId.value;
      if ParseConfirmReply(m.replyId).0 == Some(button) && ColonAt(s) < |s| {
        assert s[..|button| + 1] == button + ":";
      }
      if button + ":" <= s {
        assert s[|button|] == ':' && s[..|button|] == button;
        assert forall k :: 0 <= k < |button| ==> s[k] == button[k] && button[k] in button;
        assert ColonAt(s) == |button|;
      }
      if s == button {
        BareIdHasNoToken(button);
      }
    }
  }

  ghost predicate SendsPlace(m: Inbound) { m.kind == "location" && m.coords.Some? }

  ghost predicate SendsPicture(m: Inbound) { m.kind == "image" && m.mediaId.Some? && |m.mediaId.value| > 0 }

  /** The place as the message gives it, with what the geocoder said. */
  ghost function PlaceOf(m: Inbound, geocode: Option<Geocode>, confirmedAt: Option<Time>): Location {
    match geocode
    case None => Location(m.coords, None, Some(m.id), None, confirmedAt)
    case Some(g) => Location(m.coords, g.address, Some(m.id), Some(g.status), confirmedAt)
  }

  // ----- one turn -----

  /** The turn changes the state of the conversation and what it asks, and does nothing else. */
  ghost predicate Moves(r: Result, s: State, c: Context, kind: string, buttons: seq<string>) {
    r.state == s && r.context == c && r.intents == [Intent(kind, buttons)] && r.action == Nothing && !r.close
  }

  ghost predicate Quietly(r: Result, s: State, c: Context) {
    r.state == s && r.context == c && r.intents == [] && r.action == Nothing && !r.close
  }

  /**
   A place that is sent before any is confirmed replaces the one on the card: the message's own coordinates, under
   the message's own id, unconfirmed.
   */
  lemma PlaceIsStaged(s: Option<State>, c: Option<Context>, m: Inbound, geocode: Option<Geocode>, now: Time)
    requires s == None || s.value in {Expired, AwaitingLocation, ConfirmingLocation}
    requires SendsPlace(m)
    ensures var was := if c == None then DEFAULT_CONTEXT else c.value;
      Moves(Advance(s, c, m, geocode, now), ConfirmingLocation, was.(location := PlaceOf(m, geocode, None)),
            "confirm_location", ["loc_confirm_yes:" + m.id, "loc_confirm_no:" + m.id])
  {
    assert CONFIRM_YES_ID + ":" + m.id == "loc_confirm_yes:" + m.id;
    assert CONFIRM_NO_ID + ":" + m.id == "loc_confirm_no:" + m.id;
  }

  lemma NoPlaceYet(s: Option<State>, c: Option<Context>, m: Inbound, geocode: Option<Geocode>, now: Time)
    requires s == None || s.value in {Expired, AwaitingLocation}
    requires !SendsPlace(m)
    ensures var was := if c == None then DEFAULT_CONTEXT else c.value;
      Moves(Advance(s, c, m, geocode, now), AwaitingLocation, was,
            if s == Some(AwaitingLocation) then "location_reprompt" else "greeting_location", [])
  {
  }

  /** Yes and No to the card that is shown; anything else shows it again. */
  lemma CardIsAnswered(c: Context, m: Inbound, geocode: Option<Geocode>, now: Time)
    requires c.location.source.Some? && c.location.source.value != "" && !SendsPlace(m)
    ensures var r, id := Advance(Some(ConfirmingLocation), Some(c), m, geocode, now), c.location.source.value;
      if m.replyId == Some("loc_confirm_yes:" + id)
      then Moves(r, AwaitingIssue, c.(location := c.location.(confirmedAt := Some(now))), "ask_issue", ["issue_done"])
      else if m.replyId == Some("loc_confirm_no:" + id)
      then Moves(r, AwaitingLocation, c.(location := Location(None, None, None, None, None)), "location_request", [])
      else Moves(r, ConfirmingLocation, c, "confirm_location", ["loc_confirm_yes:" + id, "loc_confirm_no:" + id])
  {
    var id := c.location.source.value;
    ConfirmRoundTrip(CONFIRM_YES_ID, id, m.replyId);
    ConfirmRoundTrip(CONFIRM_NO_ID, id, m.replyId);
    assert CONFIRM_YES_ID + ":" + id == "loc_confirm_yes:" + id;
    assert CONFIRM_NO_ID + ":" + id == "loc_confirm_no:" + id;
    assert CONFIRM_YES_ID != CONFIRM_NO_ID by { assert |CONFIRM_YES_ID| != |CONFIRM_NO_ID|; }
  }

  /** The buttons without a token are told apart by their bases. */
  lemma ButtonsAreTheirBases(m: Inbound)
    ensures var base := ParseConfirmReply(m.replyId).0;
      && (base == Some(ISSUE_DONE_ID) <==> Taps(m, "issue_done"))
      && (base == Some(PHOTO_SKIP_ID) <==> Taps(m, "photo_skip"))
      && (base == Some(PHOTO_SHARE_ID) <==> Taps(m, "photo_share"))
      && (base == Some(PHOTO_CONTINUE_ID) <==> Taps(m, "photo_continue"))
  {
    assert ':' !in ISSUE_DONE_ID by { assert |ISSUE_DONE_ID| == 10 && forall k :: 0 <= k < 10 ==> ISSUE_DONE_ID[k] != ':'; }
    assert ':' !in PHOTO_SKIP_ID by { assert |PHOTO_SKIP_ID| == 10 && forall k :: 0 <= k < 10 ==> PHOTO_SKIP_ID[k] != ':'; }
    assert ':' !in PHOTO_SHARE_ID by { assert |PHOTO_SHARE_ID| == 11 && forall k :: 0 <= k < 11 ==> PHOTO_SHARE_ID[k] != ':'; }
    assert ':' !in PHOTO_CONTINUE_ID by {
      assert |PHOTO_CONTINUE_ID| == 14 && forall k :: 0 <= k < 14 ==> PHOTO_CONTINUE_ID[k] != ':';
    }
    TapsIsTheBase(m, ISSUE_DONE_ID);
    TapsIsTheBase(m, PHOTO_SKIP_ID);
    TapsIsTheBase(m, PHOTO_SHARE_ID);
    TapsIsTheBase(m, PHOTO_CONTINUE_ID);
  }

  /** Part of the issue: text, sound, pictures and files, but not the tap that ends it. */
  ghost predicate TellsIssue(m: Inbound) {
    !Taps(m, "issue_done") && m.kind in {"text", "audio", "voice", "image", "video", "document"}
  }

  /** The issue grows by each such message until Done is tapped on one that is not empty. */
  lemma IssueIsTold(c: Context, m: Inbound, geocode: Option<Geocode>, now: Time)
    ensures var r := Advance(Some(AwaitingIssue), Some(c), m, geocode, now);
      if Taps(m, "issue_done") then
        if c.issue.messages == [] then Moves(r, AwaitingIssue, c, "issue_empty", [])
        else Moves(r, AwaitingPhoto, c, "photo_prompt", ["photo_share", "photo_skip"])
      else if TellsIssue(m) then
        && Quietly(r, AwaitingIssue, c.(issue := r.context.issue))
        && r.context.issue.messages
           == c.issue.messages + [IssueMessage(m.id, m.receivedAt, m.kind, m.text, m.mediaId, m.mime)]
        && r.context.issue.source == (if c.issue.source == None then Some(m.id) else c.issue.source)
      else Quietly(r, AwaitingIssue, c)
  {
    ButtonsAreTheirBases(m);
  }

  /** The pipeline, or the check of a new picture, sets out. */
  ghost predicate SetsOut(r: Result, c: Context, action: Action) {
    && r.state == Processing && r.context == c && r.intents == [Intent("processing_wait", [])]
    && r.action == action && !r.close
  }

  /** The photo is the picture that is sent, or skipped; then the pipeline starts. */
  lemma PhotoIsAnswered(c: Context, m: Inbound, geocode: Option<Geocode>, now: Time)
    ensures var r := Advance(Some(AwaitingPhoto), Some(c), m, geocode, now);
      if SendsPicture(m) then SetsOut(r, c.(photo := Photo(m.mediaId, m.mime, Some(false))), StartPipeline)
      else if Taps(m, "photo_skip") then SetsOut(r, c.(photo := Photo(None, None, Some(true))), StartPipeline)
      else if Taps(m, "photo_share") then Moves(r, AwaitingPhoto, c, "photo_instruction", [])
      else Moves(r, AwaitingPhoto, c, "photo_prompt", ["photo_share", "photo_skip"])
  {
    ButtonsAreTheirBases(m);
  }

  /** A picture that did not fit is replaced and checked again, or the citizen goes on without. */
  lemma MismatchIsAnswered(c: Context, m: Inbound, geocode: Option<Geocode>, now: Time)
    ensures var r := Advance(Some(PhotoMismatch), Some(c), m, geocode, now);
      if SendsPicture(m) then
        SetsOut(r, c.(photo := Photo(m.mediaId, m.mime, Some(false)),
                      draft := Draft(c.draft.grievance, c.draft.rechecks + 1)), RecheckPhoto)
      else if Taps(m, "photo_continue") then SetsOut(r, c, ProceedWithoutPhoto)
      else Moves(r, PhotoMismatch, c, "image_mismatch", ["photo_share", "photo_continue"])
  {
    ButtonsAreTheirBases(m);
  }

  /** The complaint is filed or withdrawn by the two buttons that carry its id, and by nothing else. */
  lemma ComplaintIsAnswered(c: Context, m: Inbound, geocode: Option<Geocode>, now: Time)
    requires c.draft.grievance.Some? && c.draft.grievance.value != ""
    ensures var r, id := Advance(Some(AwaitingConfirmation), Some(c), m, geocode, now), c.draft.grievance.value;
      if m.replyId == Some("grv_confirm:" + id) then r == Result(Done, c, [], Finalize, true)
      else if m.replyId == Some("grv_cancel:" + id) then r == Result(Done, c, [], Cancel, true)
      else Quietly(r, AwaitingConfirmation, c)
  {
    var id := c.draft.grievance.value;
    ConfirmRoundTrip(CONFIRM_GRV_YES_ID, id, m.replyId);
    ConfirmRoundTrip(CONFIRM_GRV_NO_ID, id, m.replyId);
    assert CONFIRM_GRV_YES_ID + ":" + id == "grv_confirm:" + id;
    assert CONFIRM_GRV_NO_ID + ":" + id == "grv_cancel:" + id;
    assert CONFIRM_GRV_YES_ID != CONFIRM_GRV_NO_ID by { assert |CONFIRM_GRV_YES_ID| != |CONFIRM_GRV_NO_ID|; }
  }

  /** While the pipeline is at work, and once all is over, nothing said changes anything. */
  lemma NothingIsAnswered(s: State, c: Context, m: Inbound, geocode: Option<Geocode>, now: Time)
    requires s in {Processing, Done} || s.Unknown?
    ensures var r := Advance(Some(s), Some(c), m, geocode, now);
      if s == Processing then Moves(r, Processing, c, "still_processing", []) else Quietly(r, s, c)
  {
  }

  // ----- whole conversations -----

  /** A conversation that nothing has been said in. */
  function Fresh(): Track { Track(AwaitingLocation, DEFAULT_CONTEXT, 0, 0) }

  /** The first message finds no conversation, and leads where it leads in a fresh one. */
  lemma FirstMessageIsSaid(m: Inbound, geocode: Option<Geocode>, now: Time, grievance: string)
    ensures var r, t := Advance(None, None, m, geocode, now), MoveStep(Fresh(), Said(m, geocode, now, grievance));
      t.state == r.state && t.context == Settled(r, grievance)
  {
    if SendsPlace(m) {
      PlaceIsStaged(None, None, m, geocode, now);
      PlaceIsStaged(Some(AwaitingLocation), Some(DEFAULT_CONTEXT), m, geocode, now);
    } else {
      NoPlaceYet(None, None, m, geocode, now);
      NoPlaceYet(Some(AwaitingLocation), Some(DEFAULT_CONTEXT), m, geocode, now);
    }
  }

  /** The conversation after these moves. */
  function At(moves: seq<Move>): Track { Run(MoveStep, Fresh(), moves) }

  ghost predicate InPlace(moves: seq<Move>) { Allowed(MoveStep, AnswersInPlace, Fresh(), moves) }

  lemma OneMove(moves: seq<Move>)
    requires moves != [] && InPlace(moves)
    ensures var n := |moves| - 1;
      && At(moves) == MoveStep(At(moves[..n]), moves[n])
      && InPlace(moves[..n]) && AnswersInPlace(At(moves[..n]), moves[n])
      && TrackOk(At(moves[..n])) && TrackOk(At(moves))
  {
    var n := |moves| - 1;
    ConversationsMoveForward(Fresh(), moves[..n]);
    ConversationsMoveForward(Fresh(), moves);
  }

  ghost predicate SaysPlace(move: Move) { move.Said? && SendsPlace(move.m) }

  /** The last place sent is that of move `j`. */
  ghost predicate LastPlace(moves: seq<Move>, j: nat, upTo: nat)
    requires upTo <= |moves|
  {
    j < upTo && SaysPlace(moves[j]) && forall i :: j < i < upTo ==> !SaysPlace(moves[i])
  }

  /** What a move makes of a card, and of a conversation without one. */
  lemma BeforeConfirmation(t: Track, move: Move)
    requires TrackOk(t) && AnswersInPlace(t, move) && Rank(t.state) == 0
    ensures var t' := MoveStep(t, move);
      && move.Said?
      && (SaysPlace(move) ==>
            t'.state == ConfirmingLocation && t'.context.location == PlaceOf(move.m, move.geocode, None))
      && (!SaysPlace(move) && t.state == AwaitingLocation ==> t'.state == AwaitingLocation)
      && (!SaysPlace(move) && t'.state == ConfirmingLocation ==>
            t.state == ConfirmingLocation && t'.context.location == t.context.location)
      && (Rank(t'.state) >= 1 ==>
            && !SaysPlace(move) && t.state == ConfirmingLocation && t.context.location.source.Some?
            && move.m.replyId == Some("loc_confirm_yes:" + t.context.location.source.value)
            && t'.context.location == t.context.location.(confirmedAt := Some(move.now)))
  {
    if SaysPlace(move) {
      PlaceIsStaged(Some(t.state), Some(t.context), move.m, move.geocode, move.now);
    } else if t.state == AwaitingLocation {
      NoPlaceYet(Some(t.state), Some(t.context), move.m, move.geocode, move.now);
    } else if t.context.location.source.value == "" {
      NamelessIsNotConfirmed(t.context, move.m, move.geocode, move.now);
    } else {
      CardIsAnswered(t.context, move.m, move.geocode, move.now);
    }
  }

  /** A place that came without a message id cannot be answered. */
  lemma NamelessIsNotConfirmed(c: Context, m: Inbound, geocode: Option<Geocode>, now: Time)
    requires c.location.source == Some("") && !SendsPlace(m)
    ensures var r := Advance(Some(ConfirmingLocation), Some(c), m, geocode, now);
      r.state == ConfirmingLocation && r.context == c && r.action == Nothing
  {
  }

  /** The last move, told from the conversation before it. */
  lemma LastMoveBeforeConfirmation(moves: seq<Move>)
    requires moves != [] && InPlace(moves) && Rank(At(moves[..|moves| - 1]).state) == 0
    ensures var n := |moves| - 1;
            var t, t', move := At(moves[..n]), At(moves), moves[n];
      && move.Said? && InPlace(moves[..n])
      && (SaysPlace(move) ==>
            t'.state == ConfirmingLocation && t'.context.location == PlaceOf(move.m, move.geocode, None))
      && (!SaysPlace(move) && t'.state == ConfirmingLocation ==>
            t.state == ConfirmingLocation && t'.context.location == t.context.location)
      && (Rank(t'.state) >= 1 ==>
            && !SaysPlace(move) && t.state == ConfirmingLocation && t.context.location.source.Some?
            && move.m.replyId == Some("loc_confirm_yes:" + t.context.location.source.value)
            && t'.context.location == t.context.location.(confirmedAt := Some(move.now)))
  {
    OneMove(moves);
    BeforeConfirmation(At(moves[..|moves| - 1]), moves[|moves| - 1]);
  }

  lemma LastMoveAfterConfirmation(moves: seq<Move>)
    requires moves != [] && InPlace(moves) && Rank(At(moves[..|moves| - 1]).state) >= 1
    ensures var n := |moves| - 1;
      && InPlace(moves[..n])
      && At(moves).context.location == At(moves[..n]).context.location
  {
    OneMove(moves);
    MoveKeepsOrder(At(moves[..|moves| - 1]), moves[|moves| - 1]);
  }

  lemma RanksGrow(moves: seq<Move>)
    requires moves != [] && InPlace(moves)
    ensures Rank(At(moves[..|moves| - 1]).state) <= Rank(At(moves).state)
  {
    OneMove(moves);
    MoveKeepsOrder(At(moves[..|moves| - 1]), moves[|moves| - 1]);
  }

  /** The card shows what move `j` sent, the last place there is. */
  ghost predicate CardShows(moves: seq<Move>, j: nat) {
    && LastPlace(moves, j, |moves|)
    && At(moves).context.location == PlaceOf(moves[j].m, moves[j].geocode, None)
  }

  /**
   The place is confirmed: move `k` is a Yes that carries the id of the last place sent before it, by move `j`, and
   coordinates, address and geocoder status are what that message came with.
   */
  ghost predicate ConfirmedBy(moves: seq<Move>, j: nat, k: nat) {
    && k < |moves| && LastPlace(moves, j, k)
    && moves[k].Said? && moves[k].m.replyId == Some("loc_confirm_yes:" + moves[j].m.id)
    && At(moves).context.location == PlaceOf(moves[j].m, moves[j].geocode, Some(moves[k].now))
  }

  lemma LastPlaceStays(moves: seq<Move>, j: nat, n: nat, upTo: nat)
    requires n <= |moves| && upTo <= n && LastPlace(moves[..n], j, upTo)
    ensures LastPlace(moves, j, upTo) && moves[..n][j] == moves[j]
    ensures upTo < |moves| && !SaysPlace(moves[upTo]) ==> LastPlace(moves, j, upTo + 1)
  {
    assert forall i :: 0 <= i < n ==> moves[..n][i] == moves[i];
  }

  lemma CardStays(moves: seq<Move>, j: nat)
    requires moves != [] && CardShows(moves[..|moves| - 1], j) && !SaysPlace(moves[|moves| - 1])
    requires At(moves[..|moves| - 1]).context.location == At(moves).context.location
    ensures CardShows(moves, j)
  {
    LastPlaceStays(moves, j, |moves| - 1, |moves| - 1);
  }

  lemma CardConfirmed(moves: seq<Move>, j: nat)
    requires var n := |moves| - 1;
      && moves != [] && CardShows(moves[..n], j) && moves[n].Said?
      && moves[n].m.replyId == Some("loc_confirm_yes:" + At(moves[..n]).context.location.source.value)
      && At(moves).context.location
         == At(moves[..n]).context.location.(confirmedAt := Some(moves[n].now))
    ensures ConfirmedBy(moves, j, |moves| - 1)
  {
    LastPlaceStays(moves, j, |moves| - 1, |moves| - 1);
  }

  lemma ConfirmedStays(moves: seq<Move>, j: nat, k: nat)
    requires moves != [] && ConfirmedBy(moves[..|moves| - 1], j, k)
    requires At(moves[..|moves| - 1]).context.location == At(moves).context.location
    ensures ConfirmedBy(moves, j, k)
  {
    LastPlaceStays(moves, j, |moves| - 1, k);
  }

  /** The place on the card is the last one sent. */
  lemma {:induction false} CardShowsLastPlace(moves: seq<Move>) returns (j: nat)
    requires InPlace(moves) && At(moves).state == ConfirmingLocation
    ensures CardShows(moves, j)
    decreases |moves|
  {
    assert moves != [];
    RanksGrow(moves);
    LastMoveBeforeConfirmation(moves);
    if SaysPlace(moves[|moves| - 1]) {
      j := |moves| - 1;
    } else {
      j := CardShowsLastPlace(moves[..|moves| - 1]);
      CardStays(moves, j);
    }
  }

  /**
   The confirmed place is the one on the card that was tapped, in every conversation past its confirmation, then and
   ever after.
   */
  lemma {:induction false} ConfirmedPlaceIsTheOneTapped(moves: seq<Move>) returns (j: nat, k: nat)
    requires InPlace(moves) && Rank(At(moves).state) >= 1
    ensures ConfirmedBy(moves, j, k)
    decreases |moves|
  {
    assert moves != [];
    var n := |moves| - 1;
    if Rank(At(moves[..n]).state) >= 1 {
      LastMoveAfterConfirmation(moves);
      j, k := ConfirmedPlaceIsTheOneTapped(moves[..n]);
      ConfirmedStays(moves, j, k);
    } else {
      j := JustConfirmed(moves);
      k := n;
    }
  }

  lemma JustConfirmed(moves: seq<Move>) returns (j: nat)
    requires moves != [] && InPlace(moves)
    requires Rank(At(moves[..|moves| - 1]).state) == 0 && Rank(At(moves).state) >= 1
    ensures ConfirmedBy(moves, j, |moves| - 1)
  {
    LastMoveBeforeConfirmation(moves);
    j := CardShowsLastPlace(moves[..|moves| - 1]);
    CardConfirmed(moves, j);
  }

  // ----- the issue -----

  /** What a move adds to the issue of a conversation in state `s`. */
  ghost function Adds(s: State, move: Move): seq<IssueMessage> {
    match move
    case Said(m, _, _, _) =>
      if s == AwaitingIssue && TellsIssue(m)
      then [IssueMessage(m.id, m.receivedAt, m.kind, m.text, m.mediaId, m.mime)] else []
    case Answered(_, _) => []
  }

  /** The messages heard while the issue was asked for, in order. */
  ghost function Told(moves: seq<Move>): seq<IssueMessage>
    decreases |moves|
  {
    if moves == [] then []
    else
      var n := |moves| - 1;
      Told(moves[..n]) + Adds(At(moves[..n]).state, moves[n])
  }

  lemma MoveTells(t: Track, move: Move)
    requires AnswersInPlace(t, move)
    ensures MoveStep(t, move).context.issue.messages == t.context.issue.messages + Adds(t.state, move)
    ensures MoveStep(t, move).context.issue.source ==
      if t.context.issue.source == None && Adds(t.state, move) != [] then Some(Adds(t.state, move)[0].id)
      else t.context.issue.source
  {
    if move.Said? {
      TurnTells(t.state, t.context, move.m, move.geocode, move.now);
    }
  }

  lemma TurnTells(s: State, c: Context, m: Inbound, geocode: Option<Geocode>, now: Time)
    ensures var issue, added := Advance(Some(s), Some(c), m, geocode, now).context.issue, Adds(s, Said(m, geocode, now, ""));
      && issue.messages == c.issue.messages + added
      && issue.source == if c.issue.source == None && added != [] then Some(added[0].id) else c.issue.source
  {
    if s == AwaitingIssue { IssueIsTold(c, m, geocode, now); }
  }

  lemma IssueAfter(moves: seq<Move>)
    requires moves != [] && InPlace(moves)
    ensures var n := |moves| - 1;
      && InPlace(moves[..n])
      && At(moves).context.issue.messages
         == At(moves[..n]).context.issue.messages + Adds(At(moves[..n]).state, moves[n])
      && At(moves).context.issue.source ==
           if At(moves[..n]).context.issue.source == None && Adds(At(moves[..n]).state, moves[n]) != []
           then Some(Adds(At(moves[..n]).state, moves[n])[0].id) else At(moves[..n]).context.issue.source
  {
    OneMove(moves);
    MoveTells(At(moves[..|moves| - 1]), moves[|moves| - 1]);
  }

  /** The issue is what was told, all of it, in order and once; it goes by the id of the first message. */
  lemma {:induction false} IssueIsWhatWasTold(moves: seq<Move>)
    requires InPlace(moves)
    ensures At(moves).context.issue.messages == Told(moves)
    ensures At(moves).context.issue.source == if Told(moves) == [] then None else Some(Told(moves)[0].id)
    decreases |moves|
  {
    if moves != [] {
      IssueAfter(moves);
      IssueIsWhatWasTold(moves[..|moves| - 1]);
    }
  }

  // ----- the photo -----

  /** The move settles the photo of a conversation in state `s`: a picture, or the tap that skips it. */
  ghost predicate SettlesPhoto(s: State, move: Move) {
    && move.Said?
    && (|| (SendsPicture(move.m) && s in {AwaitingPhoto, PhotoMismatch})
        || (Taps(move.m, "photo_skip") && s == AwaitingPhoto))
  }

  ghost function PhotoOf(m: Inbound): Photo {
    if SendsPicture(m) then Photo(m.mediaId, m.mime, Some(false)) else Photo(None, None, Some(true))
  }

  lemma MoveSettlesPhoto(t: Track, move: Move)
    requires AnswersInPlace(t, move)
    ensures MoveStep(t, move).context.photo
         == if SettlesPhoto(t.state, move) then PhotoOf(move.m) else t.context.photo
  {
    if move.Said? {
      TurnSettlesPhoto(t.state, t.context, move);
    }
  }

  lemma TurnSettlesPhoto(s: State, c: Context, move: Move)
    requires move.Said?
    ensures Advance(Some(s), Some(c), move.m, move.geocode, move.now).context.photo
         == if SettlesPhoto(s, move) then PhotoOf(move.m) else c.photo
  {
    if s == AwaitingPhoto {
      PhotoIsAnswered(c, move.m, move.geocode, move.now);
    } else if s == PhotoMismatch {
      MismatchIsAnswered(c, move.m, move.geocode, move.now);
    }
  }

  ghost predicate SettledAt(moves: seq<Move>, i: nat) {
    i < |moves| && SettlesPhoto(At(moves[..i]).state, moves[i])
  }

  lemma SettledInPrefix(moves: seq<Move>, n: nat, i: nat)
    requires i < n <= |moves|
    ensures SettledAt(moves[..n], i) <==> SettledAt(moves, i)
  {
    assert moves[..n][..i] == moves[..i];
  }

  /** The last of the first `n` places where something holds. */
  ghost predicate LastOf(n: nat, k: nat, holds: nat -> bool) {
    k < n && holds(k) && forall i: nat :: k < i < n ==> !holds(i)
  }

  lemma LastOfMore(n: nat, k: nat, holds: nat -> bool, holds': nat -> bool)
    requires LastOf(n, k, holds) && !holds'(n) && forall i: nat :: i < n ==> holds'(i) == holds(i)
    ensures LastOf(n + 1, k, holds')
  {
  }

  /** Move `k` is the last that settled the photo. */
  ghost predicate LastSettled(moves: seq<Move>, k: nat) {
    LastOf(|moves|, k, (i: nat) => SettledAt(moves, i))
  }

  lemma LastSettledStays(moves: seq<Move>, k: nat)
    requires moves != [] && LastSettled(moves[..|moves| - 1], k) && !SettledAt(moves, |moves| - 1)
    ensures LastSettled(moves, k)
  {
    var n := |moves| - 1;
    forall i: nat | i < n ensures SettledAt(moves[..n], i) == SettledAt(moves, i) { SettledInPrefix(moves, n, i); }
    LastOfMore(n, k, (i: nat) => SettledAt(moves[..n], i), (i: nat) => SettledAt(moves, i));
  }

  lemma PhotoAfter(moves: seq<Move>)
    requires moves != [] && InPlace(moves)
    ensures var n := |moves| - 1;
      && InPlace(moves[..n])
      && At(moves).context.photo
         == if SettlesPhoto(At(moves[..n]).state, moves[n]) then PhotoOf(moves[n].m) else At(moves[..n]).context.photo
  {
    OneMove(moves);
    MoveSettlesPhoto(At(moves[..|moves| - 1]), moves[|moves| - 1]);
  }

  /** Past the question for a photo, it is the last picture that was accepted, or skipped if there was none. */
  lemma {:induction false} PhotoIsTheLastAccepted(moves: seq<Move>) returns (k: nat)
    requires InPlace(moves) && At(moves).context.photo != Photo(None, None, None)
    ensures k < |moves| && LastSettled(moves, k)
    ensures moves[k].Said? && At(moves).context.photo == PhotoOf(moves[k].m)
    decreases |moves|
  {
    assert moves != [];
    PhotoAfter(moves);
    var n := |moves| - 1;
    if SettlesPhoto(At(moves[..n]).state, moves[n]) {
      k := n;
    } else {
      k := PhotoIsTheLastAccepted(moves[..n]);
      LastSettledStays(moves, k);
    }
  }
}
