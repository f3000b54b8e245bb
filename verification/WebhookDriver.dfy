/** drive_event, statement by statement; what others do between its commits is an argument. */
module WebhookDriver {
  import opened Wrappers
  import opened Runs
  import opened Clock
  import opened Webhook

  ghost predicate OthersOnly(es: seq<Event>, who: nat) {
    forall k :: 0 <= k < |es| ==> NotBy(es[k], who)
  }

  lemma StepSparesDrive(w: World, e: Event, who: nat)
    requires NotBy(e, who)
    ensures var w' := Step(w, e);
      && (who in w.drives ==> who in w'.drives && w'.drives[who] == w.drives[who])
      && (who !in w.drives ==> who !in w'.drives)
      && w'.autoReply == w.autoReply && |w.hooks| <= |w'.hooks|
      && (forall k :: 0 <= k < |w.hooks| ==> w'.hooks[k].payload == w.hooks[k].payload)
  {
  }

  lemma OthersKeepDrive(w: World, es: seq<Event>, who: nat)
    requires OthersOnly(es, who)
    ensures who in w.drives ==> who in Run(Step, w, es).drives && Run(Step, w, es).drives[who] == w.drives[who]
    ensures who !in w.drives ==> who !in Run(Step, w, es).drives
    ensures Run(Step, w, es).autoReply == w.autoReply
    ensures |w.hooks| <= |Run(Step, w, es).hooks|
    ensures forall k :: 0 <= k < |w.hooks| ==> Run(Step, w, es).hooks[k].payload == w.hooks[k].payload
    decreases |es|
  {
    if es != [] {
      OthersKeepDrive(w, es[..|es| - 1], who);
      StepSparesDrive(Run(Step, w, es[..|es| - 1]), es[|es| - 1], who);
    }
  }

  /**
   How one drive goes: its clock readings, whether the insert commits, how each turn ends, and the
   others' steps after the claim and after each turn.
   */
  datatype Course = Course(who: nat, at: Time, storeOk: bool, outcomes: seq<Outcome>, gaps: seq<seq<Event>>, markAt: Time)

  predicate Covers(c: Course, n: nat) {
    |c.outcomes| >= n && |c.gaps| > n
  }

  /** The first n turns, each followed by what the others do meanwhile. */
  function Turns(c: Course, n: nat): seq<Event>
    requires Covers(c, n)
  {
    if n == 0 then [] else Turns(c, n - 1) + [Handle(c.who, c.outcomes[n - 1])] + c.gaps[n]
  }

  function Opening(c: Course): seq<Event>
    requires Covers(c, 0)
  {
    c.gaps[0] + [Poison(c.who, c.markAt)] + [if c.storeOk then Store(c.who) else StoreFails(c.who)]
  }

  lemma OpeningRuns(w: World, c: Course)
    requires Covers(c, 0)
    ensures Run(Step, w, Opening(c))
         == Step(Step(Run(Step, w, c.gaps[0]), Poison(c.who, c.markAt)),
                 if c.storeOk then Store(c.who) else StoreFails(c.who))
  {
    RunSnoc(Step, w, c.gaps[0], Poison(c.who, c.markAt));
    RunSnoc(Step, w, c.gaps[0] + [Poison(c.who, c.markAt)], if c.storeOk then Store(c.who) else StoreFails(c.who));
  }

  lemma TurnRuns(w: World, c: Course, n: nat)
    requires Covers(c, n + 1)
    ensures Run(Step, w, Turns(c, n + 1))
         == Run(Step, Step(Run(Step, w, Turns(c, n)), Handle(c.who, c.outcomes[n])), c.gaps[n + 1])
  {
    RunSnoc(Step, w, Turns(c, n), Handle(c.who, c.outcomes[n]));
    RunConcat(Step, w, Turns(c, n) + [Handle(c.who, c.outcomes[n])], c.gaps[n + 1]);
  }

  /** The drive marks the event: its attempts are used up, or the insert and each of its `handled` turns went well. */
  ghost predicate Marks(h: Hook, c: Course, handled: nat) {
    h.attempts + 1 > 5 || (c.storeOk && AllWell(c.outcomes, handled))
  }

  /** How the loop over the turns counts: each of the first `n` went well. */
  predicate NoneFailed(c: Course, n: nat)
    requires Covers(c, n)
  {
    n == 0 || (NoneFailed(c, n - 1) && c.outcomes[n - 1] == Committed)
  }

  lemma {:induction false} NoneFailedIsAllWell(c: Course, n: nat)
    requires Covers(c, n)
    ensures NoneFailed(c, n) <==> AllWell(c.outcomes, n)
  {
    if n > 0 { NoneFailedIsAllWell(c, n - 1); }
  }

  class Tables {
    var clock: Time
    const autoReply: bool
    var hooks: seq<Hook>
    var stored: set<string>
    var consumed: seq<string>
    var drives: map<nat, Drive>
    var bodies: seq<seq<nat>>

    function Now(): World
      reads this
    {
      World(clock, autoReply, hooks, stored, consumed, drives, bodies)
    }

    constructor (clock: Time, autoReply: bool)
      ensures Initial(Now())
    {
      this.clock, this.autoReply := clock, autoReply;
      hooks, stored, consumed, drives, bodies := [], {}, [], map[], [];
    }

    method Others(es: seq<Event>, who: nat)
      requires OthersOnly(es, who)
      modifies this
      ensures Now() == Run(Step, old(Now()), es)
      ensures who in old(drives) ==> who in drives && drives[who] == old(drives)[who]
      ensures |old(hooks)| <= |hooks|
    {
      OthersKeepDrive(Now(), es, who);
      var w := Run(Step, Now(), es);
      clock, hooks, stored, consumed := w.clock, w.hooks, w.stored, w.consumed;
      drives, bodies := w.drives, w.bodies;
    }

    method ClaimEvent(who: nat, hook: nat, at: Time) returns (won: bool)
      requires who !in drives && clock <= at
      modifies this
      ensures Now() == Step(old(Now()), Claim(who, hook, at))
      ensures won <==> who in drives
      ensures won <==> hook < |old(hooks)| && Claimable(old(hooks)[hook], at)
      ensures won ==>
        var h := old(hooks)[hook];
        && h.processedAt == None && (h.lockedUntil == None || h.lockedUntil.value < at)
        && hooks == old(hooks)[hook := Hook(h.payload, None, Some(at + 60_000_000), h.attempts + 1)]
        && drives[who] == Drive(hook, h.attempts + 1, Claimed)
    {
      clock := at;
      won := hook < |hooks| && Claimable(hooks[hook], at);
      if won {
        var h := hooks[hook].(lockedUntil := Some(at + EVENT_LEASE), attempts := hooks[hook].attempts + 1);
        hooks := hooks[hook := h];
        drives := drives[who := Drive(hook, h.attempts, Claimed)];
      }
    }

    method MarkEventProcessed(hook: nat, at: Time)
      requires hook < |hooks|
      modifies this`hooks
      ensures hooks == old(hooks)[hook := Processed(old(hooks)[hook], at)]
    {
      hooks := hooks[hook := hooks[hook].(processedAt := Some(at), lockedUntil := None)];
    }

    /** Insert the messages; the list of those this insert created, by time of receipt. */
    method StoreIncomingMessages(who: nat, ok: bool) returns (todo: seq<Message>)
      requires InBody(Now(), who)
      modifies this
      ensures Now() == Step(old(Now()), if ok then Store(who) else StoreFails(who))
      ensures ok ==> who in drives && drives[who].stage == Handling(todo, true) && drives[who].hook == old(drives)[who].hook
      ensures ok ==> |todo| <= |old(hooks)[old(drives)[who].hook].payload|
    {
      var d := drives[who];
      todo := [];
      bodies := bodies[d.hook := bodies[d.hook] + [d.attempt]];
      if ok {
        var payload := hooks[d.hook].payload;
        FreshIsNoLonger(payload, stored);
        todo := if autoReply then ByTime(Fresh(payload, stored)) else [];
        stored := stored + IdSet(payload);
        drives := drives[who := d.(stage := Handling(todo, true))];
      } else {
        drives := drives - {who};
      }
    }

    /** One message's turn, ending as `outcome` says. */
    method HandleInbound(who: nat, m: Message, outcome: Outcome) returns (ok: bool)
      requires who in drives && drives[who].stage.Handling? && drives[who].stage.rest != []
      requires m == drives[who].stage.rest[0]
      modifies this
      ensures Now() == Step(old(Now()), Handle(who, outcome))
      ensures ok <==> outcome == Committed
      ensures hooks == old(hooks) && who in drives && drives[who].hook == old(drives)[who].hook
      ensures drives[who].stage ==
                Handling(old(drives)[who].stage.rest[1..], old(drives)[who].stage.ok && outcome == Committed)
    {
      ok := outcome == Committed;
      if outcome != RolledBack && m.id !in consumed {
        consumed := consumed + [m.id];
      }
      var d := drives[who];
      drives := drives[who := d.(stage := Handling(d.stage.rest[1..], d.stage.ok && ok))];
    }

    /** The turn of the next message, and what others do until the one after it. */
    method OneTurn(c: Course, n: nat, hook: nat, ghost rest: seq<Message>, ghost okSoFar: bool) returns (ok: bool)
      requires Covers(c, n + 1) && hook < |hooks| && OthersOnly(c.gaps[n + 1], c.who) && rest != []
      requires c.who in drives && drives[c.who].hook == hook && drives[c.who].stage == Handling(rest, okSoFar)
      modifies this
      ensures Now() == Run(Step, Step(old(Now()), Handle(c.who, c.outcomes[n])), c.gaps[n + 1]) && hook < |hooks|
      ensures ok <==> c.outcomes[n] == Committed
      ensures c.who in drives && drives[c.who].hook == hook && drives[c.who].stage == Handling(rest[1..], okSoFar && ok)
    {
      ok := HandleInbound(c.who, drives[c.who].stage.rest[0], c.outcomes[n]);
      Others(c.gaps[n + 1], c.who);
    }

    /** The loop over the fresh messages; a failed turn is noted and the next one still runs. */
    method RunTurns(c: Course, hook: nat, todo: seq<Message>) returns (allOk: bool)
      requires Covers(c, |todo|) && hook < |hooks|
      requires c.who in drives && drives[c.who].hook == hook && drives[c.who].stage == Handling(todo, true)
      requires forall k :: 0 <= k < |c.gaps| ==> OthersOnly(c.gaps[k], c.who)
      modifies this
      ensures Now() == Run(Step, old(Now()), Turns(c, |todo|)) && hook < |hooks|
      ensures c.who in drives && drives[c.who].hook == hook && drives[c.who].stage == Handling([], allOk)
      ensures allOk == NoneFailed(c, |todo|)
    {
      ghost var ready := Now();
      allOk := true;
      for handled := 0 to |todo|
        invariant hook < |hooks|
        invariant Now() == Run(Step, ready, Turns(c, handled))
        invariant c.who in drives && drives[c.who].hook == hook
        invariant drives[c.who].stage == Handling(todo[handled..], allOk)
        invariant allOk == NoneFailed(c, handled)
      {
        TurnRuns(ready, c, handled);
        assert todo[handled..][1..] == todo[handled + 1..];
        var ok := OneTurn(c, handled, hook, todo[handled..], allOk);
        allOk := allOk && ok;
      }
    }

    /** The drive returns; the event is marked only when every turn ended well. */
    method EndDrive(who: nat, hook: nat, allOk: bool, markAt: Time)
      requires hook < |hooks| && who in drives && drives[who].hook == hook && drives[who].stage == Handling([], allOk)
      modifies this
      ensures Now() == Step(old(Now()), Finish(who, markAt)) && who !in drives
      ensures hooks == if allOk then old(hooks)[hook := old(hooks)[hook].(processedAt := Some(markAt), lockedUntil := None)]
                       else old(hooks)
    {
      if allOk {
        MarkEventProcessed(hook, markAt);
      }
      drives := drives - {who};
    }

    /** The rest of a drive once its messages are stored. */
    method GiveTurns(c: Course, hook: nat, todo: seq<Message>)
      requires Covers(c, |todo|) && hook < |hooks|
      requires c.who in drives && drives[c.who].hook == hook && drives[c.who].stage == Handling(todo, true)
      requires forall k :: 0 <= k < |c.gaps| ==> OthersOnly(c.gaps[k], c.who)
      modifies this
      ensures Now() == Step(Run(Step, old(Now()), Turns(c, |todo|)), Finish(c.who, c.markAt)) && c.who !in drives
      ensures hook < |hooks|
      ensures AllWell(c.outcomes, |todo|) ==> hooks[hook].processedAt == Some(c.markAt) && hooks[hook].lockedUntil == None
    {
      NoneFailedIsAllWell(c, |todo|);
      var allOk := RunTurns(c, hook, todo);
      EndDrive(c.who, hook, allOk, c.markAt);
    }

    /** Given up on after too many attempts. */
    method PoisonEvent(who: nat, hook: nat, markAt: Time)
      requires hook < |hooks| && who in drives && drives[who].hook == hook && drives[who].stage.Claimed?
      requires drives[who].attempt > MAX_EVENT_ATTEMPTS
      modifies this
      ensures Now() == Step(old(Now()), Poison(who, markAt)) && who !in drives
      ensures hooks == old(hooks)[hook := old(hooks)[hook].(processedAt := Some(markAt), lockedUntil := None)]
    {
      MarkEventProcessed(hook, markAt);
      drives := drives - {who};
    }

    /** drive_event once its claim is committed. */
    method DriveClaimed(hook: nat, c: Course, attempt: nat) returns (handled: nat)
      requires AttemptsOk(Now()) && hook < |hooks| && Covers(c, |hooks[hook].payload|)
      requires c.who in drives && drives[c.who] == Drive(hook, attempt, Claimed)
      requires forall k :: 0 <= k < |c.gaps| ==> OthersOnly(c.gaps[k], c.who)
      modifies this
      ensures c.who !in drives && Covers(c, handled) && Now() == WholeDrive(old(Now()), c, handled)
      ensures attempt > 5 || (c.storeOk && AllWell(c.outcomes, handled)) ==>
        hook < |hooks| && hooks[hook].processedAt == Some(c.markAt) && hooks[hook].lockedUntil == None
    {
      handled := 0;
      OpeningFacts(Now(), c);
      Others(c.gaps[0], c.who);
      if attempt > MAX_EVENT_ATTEMPTS {
        PoisonEvent(c.who, hook, c.markAt);
        return;
      }
      var todo := StoreIncomingMessages(c.who, c.storeOk);
      if !c.storeOk {
        return;
      }
      handled := |todo|;
      GiveTurns(c, hook, todo);
    }

    /**
     drive_event.  `handled` messages get a turn; the event is marked processed when it is given up
     on, or when every turn ended well.
     */
    method DriveEvent(hook: nat, c: Course) returns (handled: nat)
      requires c.who !in drives && clock <= c.at && AttemptsOk(Now())
      requires hook < |hooks| ==> Covers(c, |hooks[hook].payload|)
      requires forall k :: 0 <= k < |c.gaps| ==> OthersOnly(c.gaps[k], c.who)
      modifies this
      ensures c.who !in drives
      ensures var claimed := Step(old(Now()), Claim(c.who, hook, c.at));
              if c.who !in claimed.drives then Now() == claimed && handled == 0
              else Covers(c, handled) && Now() == WholeDrive(claimed, c, handled)
      ensures hook < |old(hooks)| && Claimable(old(hooks)[hook], c.at) && Marks(old(hooks)[hook], c, handled) ==>
        hook < |hooks| && hooks[hook].processedAt == Some(c.markAt) && hooks[hook].lockedUntil == None
    {
      handled := 0;
      StepKeepsAttempts(Now(), Claim(c.who, hook, c.at));
      var won := ClaimEvent(c.who, hook, c.at);
      if !won {
        return;
      }
      handled := DriveClaimed(hook, c, drives[c.who].attempt);
    }
  }

  /** What a drive can count on after its claim, whatever the others do. */
  lemma OpeningFacts(w: World, c: Course)
    requires Covers(c, 0) && AttemptsOk(w) && OthersOnly(c.gaps[0], c.who)
    requires c.who in w.drives && w.drives[c.who].stage.Claimed?
    ensures var w1 := Run(Step, w, c.gaps[0]);
            && c.who in w1.drives && w1.drives[c.who] == w.drives[c.who]
            && w.drives[c.who].hook < |w.hooks| <= |w1.hooks| && |w1.hooks| == |w1.bodies|
            && w1.hooks[w.drives[c.who].hook].payload == w.hooks[w.drives[c.who].hook].payload
            && (w.drives[c.who].attempt > MAX_EVENT_ATTEMPTS ==>
                  WholeDrive(w, c, 0) == Step(w1, Poison(c.who, c.markAt)))
            && (w.drives[c.who].attempt <= MAX_EVENT_ATTEMPTS ==>
                  Run(Step, w, Opening(c)) == Step(w1, if c.storeOk then Store(c.who) else StoreFails(c.who)))
            && (w.drives[c.who].attempt <= MAX_EVENT_ATTEMPTS && !c.storeOk ==>
                  WholeDrive(w, c, 0) == Step(w1, StoreFails(c.who)))
  {
    OthersKeepDrive(w, c.gaps[0], c.who);
    KeepsAttempts(w, c.gaps[0]);
    OpeningRuns(w, c);
    OpeningEnds(w, Run(Step, w, c.gaps[0]), c);
  }

  /** The drive is over when the event is given up on or the insert fails; later steps of it do nothing. */
  lemma OpeningEnds(w: World, w1: World, c: Course)
    requires Covers(c, 0) && c.who in w1.drives && w1.drives[c.who].stage.Claimed?
    requires Run(Step, w, Opening(c)) == Step(Step(w1, Poison(c.who, c.markAt)),
                                              if c.storeOk then Store(c.who) else StoreFails(c.who))
    requires |w1.hooks| == |w1.bodies| && w1.drives[c.who].hook < |w1.hooks|
    ensures w1.drives[c.who].attempt > MAX_EVENT_ATTEMPTS ==>
              WholeDrive(w, c, 0) == Step(w1, Poison(c.who, c.markAt))
    ensures w1.drives[c.who].attempt <= MAX_EVENT_ATTEMPTS ==>
              Run(Step, w, Opening(c)) == Step(w1, if c.storeOk then Store(c.who) else StoreFails(c.who))
    ensures w1.drives[c.who].attempt <= MAX_EVENT_ATTEMPTS && !c.storeOk ==>
              WholeDrive(w, c, 0) == Step(w1, StoreFails(c.who))
  {
    var begun := Run(Step, w, Opening(c));
    assert Run(Step, begun, Turns(c, 0)) == begun;
    if w1.drives[c.who].attempt <= MAX_EVENT_ATTEMPTS {
      PoisonSparesEarlyAttempts(w1, c.who, c.markAt);
      if !c.storeOk { GoneStaysGone(Step(w1, StoreFails(c.who)), c.who, c.markAt); }
    } else {
      GoneStaysGone(Step(w1, Poison(c.who, c.markAt)), c.who, c.markAt);
    }
  }

  lemma PoisonSparesEarlyAttempts(w: World, who: nat, at: Time)
    requires who in w.drives && w.drives[who].attempt <= MAX_EVENT_ATTEMPTS
    ensures Step(w, Poison(who, at)) == w
  {
  }

  lemma GoneStaysGone(w: World, who: nat, at: Time)
    requires who !in w.drives
    ensures Step(w, Store(who)) == Step(w, StoreFails(who)) == Step(w, Finish(who, at)) == w
  {
  }

  function WholeDrive(claimed: World, c: Course, handled: nat): World
    requires Covers(c, handled)
  {
    Step(Run(Step, Run(Step, claimed, Opening(c)), Turns(c, handled)), Finish(c.who, c.markAt))
  }

  lemma KeepsAttempts(w: World, es: seq<Event>)
    requires AttemptsOk(w)
    ensures AttemptsOk(Run(Step, w, es))
    decreases |es|
  {
    if es != [] {
      KeepsAttempts(w, es[..|es| - 1]);
      StepKeepsAttempts(Run(Step, w, es[..|es| - 1]), es[|es| - 1]);
    }
  }
}
