/** What the steps of a drive do to an event and its messages, told field by field. */
module Drives {
  import opened Wrappers
  import opened Clock
  import opened Runs
  import opened Webhook

  /** Not processed, and under no lease that still runs. */
  ghost predicate Open(h: Hook, now: Time) {
    h.processedAt == None && (h.lockedUntil == None || h.lockedUntil.value < now)
  }

  ghost predicate Claims(w: World, e: Event, k: nat)
    requires k < |w.hooks|
  {
    e.Claim? && e.hook == k && e.who !in w.drives && w.clock <= e.at && Open(w.hooks[k], e.at)
  }

  /** The sixth attempt, or a later one, gives up on the event. */
  ghost predicate GivesUp(w: World, e: Event, k: nat) {
    && e.Poison? && e.who in w.drives && w.drives[e.who].hook == k
    && w.drives[e.who].stage == Claimed && w.drives[e.who].attempt > 5
  }

  /** Every message of the drive has had its turn, and none failed. */
  ghost predicate EndsWell(w: World, e: Event, k: nat) {
    && e.Finish? && e.who in w.drives && w.drives[e.who].hook == k
    && w.drives[e.who].stage == Handling([], true)
  }

  /**
   An event changes in three ways only: claimed, for a minute and as one attempt more, when it is open; and marked as
   processed, which frees it, by a drive that gives up on it or by one all of whose turns went well.
   */
  lemma EventChangesExactly(w: World, e: Event, k: nat)
    requires k < |w.hooks|
    ensures k < |Step(w, e).hooks|
    ensures var h := w.hooks[k];
      Step(w, e).hooks[k] ==
        if Claims(w, e, k) then Hook(h.payload, None, Some(e.at + 60_000_000), h.attempts + 1)
        else if GivesUp(w, e, k) || EndsWell(w, e, k) then Hook(h.payload, Some(e.at), None, h.attempts)
        else h
    ensures Claims(w, e, k) ==> Step(w, e).drives == w.drives[e.who := Drive(k, w.hooks[k].attempts + 1, Claimed)]
  {
  }

  /**
   The insert takes on exactly the messages whose ids are not stored yet, each once and in the order they were
   received - none when replies are switched off - and from then on all ids of the payload are stored.
   */
  lemma MessagesAreTakenOn(w: World, who: nat)
    requires InBody(w, who)
    ensures var d, w' := w.drives[who], Step(w, Store(who));
      && w'.stored == w.stored + IdSet(w.hooks[d.hook].payload) && w'.consumed == w.consumed && w'.hooks == w.hooks
      && who in w'.drives && w'.drives[who].hook == d.hook && w'.drives[who].attempt == d.attempt
      && w'.drives[who].stage.Handling? && w'.drives[who].stage.ok
      && (if !w.autoReply then w'.drives[who].stage.rest == []
          else Sorted(w'.drives[who].stage.rest) && Unique(w'.drives[who].stage.rest)
               && IdSet(w'.drives[who].stage.rest) == IdSet(w.hooks[d.hook].payload) - w.stored
               && (forall m :: m in w'.drives[who].stage.rest ==> m in w.hooks[d.hook].payload))
  {
    var payload := w.hooks[w.drives[who].hook].payload;
    FreshIsNewOnce(payload, w.stored);
    ByTimeSorts(Fresh(payload, w.stored));
    ByTimeUnique(Fresh(payload, w.stored));
    SameMembers(ByTime(Fresh(payload, w.stored)), Fresh(payload, w.stored));
  }

  /** A turn uses the next message up, is remembered if it failed, and consumes the message if it was committed. */
  lemma TurnIsTaken(w: World, who: nat, outcome: Outcome)
    requires who in w.drives && w.drives[who].stage.Handling? && w.drives[who].stage.rest != []
    ensures var d, w' := w.drives[who], Step(w, Handle(who, outcome));
            var m := d.stage.rest[0];
      && w'.drives == w.drives[who := Drive(d.hook, d.attempt, Handling(d.stage.rest[1..], d.stage.ok && outcome == Committed))]
      && w'.consumed == (if outcome != RolledBack && m.id !in w.consumed then w.consumed + [m.id] else w.consumed)
      && w'.hooks == w.hooks && w'.stored == w.stored
  {
  }
}
