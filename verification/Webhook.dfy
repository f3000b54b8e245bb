/**
 Driving webhook events.  The request's background task and the worker both drive events through a
 row lease; a drive stores the messages, then gives each newly stored one its turn.
 */
module Webhook {
  import opened Wrappers
  import opened Runs
  import opened Clock
  import Attempts

  const EVENT_LEASE: Time := 60 * SECOND
  const MAX_EVENT_ATTEMPTS: nat := 5

  datatype Message = Message(id: string, receivedAt: Time)

  datatype Hook = Hook(payload: seq<Message>, processedAt: Option<Time>, lockedUntil: Option<Time>, attempts: nat)

  /** A drive between its claim and its end: what is still to be handled, and whether all went well so far. */
  datatype Stage = Claimed | Handling(rest: seq<Message>, ok: bool)
  datatype Drive = Drive(hook: nat, attempt: nat, stage: Stage)

  /** A turn commits; commits and then fails outside its transaction; or is rolled back. */
  datatype Outcome = Committed | CommittedThenFailed | RolledBack

  datatype World = World(
    clock: Time,
    autoReply: bool,
    hooks: seq<Hook>,
    stored: set<string>,       // incoming message ids in the message table
    consumed: seq<string>,     // committed turns, in commit order
    drives: map<nat, Drive>,
    bodies: seq<seq<nat>>)     // for each event, the attempts whose drive got past the attempt check

  datatype Event =
    | Tick(to: Time)
    | Deliver(payload: seq<Message>)
    | Claim(who: nat, hook: nat, at: Time)
    | Poison(who: nat, at: Time)
    | Store(who: nat)
    | StoreFails(who: nat)
    | Handle(who: nat, outcome: Outcome)
    | Finish(who: nat, at: Time)
    | Crash(who: nat)

  predicate NotBy(e: Event, who: nat) {
    e.Tick? || e.Deliver? || e.who != who
  }

  // ----- webhook_events.py and the insert of the messages -----

  predicate Claimable(h: Hook, now: Time) {
    h.processedAt.None? && (h.lockedUntil.None? || h.lockedUntil.value < now)
  }

  function Leased(h: Hook, now: Time): Hook {
    h.(lockedUntil := Some(now + EVENT_LEASE), attempts := h.attempts + 1)
  }

  function Processed(h: Hook, now: Time): Hook {
    h.(processedAt := Some(now), lockedUntil := None)
  }

  function IdSet(ms: seq<Message>): set<string> {
    set m | m in ms :: m.id
  }

  /** The messages this insert creates: first occurrences not yet in the table. */
  function Fresh(ms: seq<Message>, stored: set<string>): seq<Message> {
    if ms == [] then []
    else
      var before := Fresh(ms[..|ms| - 1], stored);
      var m := ms[|ms| - 1];
      if m.id in stored || m.id in IdSet(ms[..|ms| - 1]) then before else before + [m]
  }

  /** list.sort by time of receipt: stable insertion. */
  function Insert(s: seq<Message>, m: Message): seq<Message> {
    if s == [] || s[|s| - 1].receivedAt <= m.receivedAt then s + [m]
    else Insert(s[..|s| - 1], m) + [s[|s| - 1]]
  }

  function ByTime(ms: seq<Message>): seq<Message> {
    if ms == [] then [] else Insert(ByTime(ms[..|ms| - 1]), ms[|ms| - 1])
  }

  // ----- the steps -----

  function ClaimStep(w: World, who: nat, hook: nat, at: Time): World {
    if who in w.drives || at < w.clock then w
    else if hook >= |w.hooks| || !Claimable(w.hooks[hook], at) then w.(clock := at)
    else
      var h := Leased(w.hooks[hook], at);
      w.(clock := at, hooks := w.hooks[hook := h],
         drives := w.drives[who := Drive(hook, h.attempts, Claimed)])
  }

  function PoisonStep(w: World, who: nat, at: Time): World {
    if who !in w.drives || !w.drives[who].stage.Claimed? || w.drives[who].attempt <= MAX_EVENT_ATTEMPTS
       || w.drives[who].hook >= |w.hooks| then w
    else
      var k := w.drives[who].hook;
      w.(hooks := w.hooks[k := Processed(w.hooks[k], at)], drives := w.drives - {who})
  }

  /** The drive has passed the attempt check. */
  predicate InBody(w: World, who: nat) {
    && who in w.drives && w.drives[who].stage.Claimed? && w.drives[who].attempt <= MAX_EVENT_ATTEMPTS
    && w.drives[who].hook < |w.hooks| && w.drives[who].hook < |w.bodies|
  }

  function EnteredBody(w: World, who: nat): seq<seq<nat>>
    requires InBody(w, who)
  {
    var d := w.drives[who];
    w.bodies[d.hook := w.bodies[d.hook] + [d.attempt]]
  }

  function StoreStep(w: World, who: nat): World {
    if !InBody(w, who) then w
    else
      var d := w.drives[who];
      var payload := w.hooks[d.hook].payload;
      var rest := if w.autoReply then ByTime(Fresh(payload, w.stored)) else [];
      w.(stored := w.stored + IdSet(payload), bodies := EnteredBody(w, who),
         drives := w.drives[who := d.(stage := Handling(rest, true))])
  }

  function StoreFailsStep(w: World, who: nat): World {
    if !InBody(w, who) then w
    else w.(bodies := EnteredBody(w, who), drives := w.drives - {who})
  }

  function HandleStep(w: World, who: nat, outcome: Outcome): World {
    if who !in w.drives || !w.drives[who].stage.Handling? || w.drives[who].stage.rest == [] then w
    else
      var d := w.drives[who];
      var m := d.stage.rest[0];
      w.(drives := w.drives[who := d.(stage := Handling(d.stage.rest[1..], d.stage.ok && outcome == Committed))],
         consumed := if outcome == RolledBack || m.id in w.consumed then w.consumed else w.consumed + [m.id])
  }

  function FinishStep(w: World, who: nat, at: Time): World {
    if who !in w.drives || !w.drives[who].stage.Handling? || w.drives[who].stage.rest != []
       || w.drives[who].hook >= |w.hooks| then w
    else
      var d := w.drives[who];
      w.(drives := w.drives - {who},
         hooks := if d.stage.ok then w.hooks[d.hook := Processed(w.hooks[d.hook], at)] else w.hooks)
  }

  function Step(w: World, e: Event): World {
    match e
    case Tick(to) => if to >= w.clock then w.(clock := to) else w
    case Deliver(payload) => w.(hooks := w.hooks + [Hook(payload, None, None, 0)], bodies := w.bodies + [[]])
    case Claim(who, hook, at) => ClaimStep(w, who, hook, at)
    case Poison(who, at) => PoisonStep(w, who, at)
    case Store(who) => StoreStep(w, who)
    case StoreFails(who) => StoreFailsStep(w, who)
    case Handle(who, outcome) => HandleStep(w, who, outcome)
    case Finish(who, at) => FinishStep(w, who, at)
    case Crash(who) => w.(drives := w.drives - {who})
  }

  ghost predicate Initial(w: World) {
    w.hooks == [] && w.stored == {} && w.consumed == [] && w.drives == map[] && w.bodies == []
  }

  // ----- attempts -----

  ghost predicate AttemptsOk(w: World) {
    && |w.hooks| == |w.bodies|
    && (forall k :: 0 <= k < |w.hooks| ==> Attempts.Distinct(w.bodies[k]))
    && (forall k, a :: 0 <= k < |w.hooks| && a in w.bodies[k] ==> 1 <= a <= MAX_EVENT_ATTEMPTS && a <= w.hooks[k].attempts)
    && (forall who :: who in w.drives ==>
          && w.drives[who].hook < |w.hooks|
          && 1 <= w.drives[who].attempt <= w.hooks[w.drives[who].hook].attempts
          && (w.drives[who].stage.Claimed? ==> w.drives[who].attempt !in w.bodies[w.drives[who].hook]))
    && (forall p, q :: p in w.drives && q in w.drives && p != q && w.drives[p].hook == w.drives[q].hook ==>
          w.drives[p].attempt != w.drives[q].attempt)
  }

  /** Steps that end or advance drives, and write nothing but marks on the events. */
  lemma MarksKeepAttempts(w: World, w': World)
    requires AttemptsOk(w) && w'.bodies == w.bodies && |w'.hooks| == |w.hooks|
    requires forall k :: 0 <= k < |w.hooks| ==> w'.hooks[k].attempts == w.hooks[k].attempts
    requires forall who :: who in w'.drives ==>
      && who in w.drives
      && w'.drives[who].hook == w.drives[who].hook && w'.drives[who].attempt == w.drives[who].attempt
      && (w'.drives[who].stage.Claimed? ==> w.drives[who].stage.Claimed?)
    ensures AttemptsOk(w')
  {
  }

  lemma ClaimKeepsAttempts(w: World, who: nat, hook: nat, at: Time)
    requires AttemptsOk(w)
    ensures AttemptsOk(ClaimStep(w, who, hook, at))
  {
    var w' := ClaimStep(w, who, hook, at);
    if w'.drives == w.drives {
      MarksKeepAttempts(w, w');
    } else {
      NewDriveKeepsAttempts(w, w', who, hook, Leased(w.hooks[hook], at));
    }
  }

  lemma NewDriveKeepsAttempts(w: World, w': World, who: nat, hook: nat, h: Hook)
    requires AttemptsOk(w) && hook < |w.hooks| && who !in w.drives && h.attempts == w.hooks[hook].attempts + 1
    requires w'.hooks == w.hooks[hook := h] && w'.bodies == w.bodies
    requires w'.drives == w.drives[who := Drive(hook, h.attempts, Claimed)]
    ensures AttemptsOk(w')
  {
    assert forall k :: 0 <= k < |w.hooks| ==> w.hooks[k].attempts <= w'.hooks[k].attempts;
    assert forall p :: p in w'.drives ==> p == who || (p in w.drives && w'.drives[p] == w.drives[p]);
  }

  lemma BodyKeepsAttempts(w: World, w': World, who: nat)
    requires AttemptsOk(w) && InBody(w, who) && w'.bodies == EnteredBody(w, who) && w'.hooks == w.hooks
    requires forall p :: p in w'.drives ==>
      && p in w.drives
      && w'.drives[p].hook == w.drives[p].hook && w'.drives[p].attempt == w.drives[p].attempt
      && (w'.drives[p].stage.Claimed? ==> w.drives[p].stage.Claimed? && p != who)
    ensures AttemptsOk(w')
  {
    var d := w.drives[who];
    BodyEntered(w.bodies[d.hook], d.attempt);
    assert w'.bodies[d.hook] == w.bodies[d.hook] + [d.attempt];
    assert forall k :: 0 <= k < |w.bodies| && k != d.hook ==> w'.bodies[k] == w.bodies[k];
  }

  lemma BodyEntered(body: seq<nat>, attempt: nat)
    requires Attempts.Distinct(body) && attempt !in body
    ensures Attempts.Distinct(body + [attempt])
    ensures forall a :: a in body + [attempt] <==> a in body || a == attempt
  {
  }

  /** The steps that only end or advance a drive. */
  predicate Marking(e: Event) {
    e.Tick? || e.Poison? || e.Handle? || e.Finish? || e.Crash?
  }

  lemma MarkingKeepsAttempts(w: World, e: Event)
    requires AttemptsOk(w) && Marking(e)
    ensures AttemptsOk(Step(w, e))
  {
    MarksKeepAttempts(w, Step(w, e));
  }

  lemma DeliverKeepsAttempts(w: World, payload: seq<Message>)
    requires AttemptsOk(w)
    ensures AttemptsOk(Step(w, Deliver(payload)))
  {
  }

  lemma StepKeepsAttempts(w: World, e: Event)
    requires AttemptsOk(w)
    ensures AttemptsOk(Step(w, e))
  {
    if Marking(e) {
      MarkingKeepsAttempts(w, e);
    } else if e.Claim? {
      ClaimKeepsAttempts(w, e.who, e.hook, e.at);
    } else if e.Deliver? {
      DeliverKeepsAttempts(w, e.payload);
    } else if InBody(w, e.who) {
      BodyKeepsAttempts(w, Step(w, e), e.who);
    }
  }

  // ----- messages -----

  ghost predicate Unique(ms: seq<Message>) {
    forall i, j :: 0 <= i < j < |ms| ==> ms[i].id != ms[j].id
  }

  lemma {:induction false} FreshIsNewOnce(ms: seq<Message>, stored: set<string>)
    ensures Unique(Fresh(ms, stored))
    ensures IdSet(Fresh(ms, stored)) == IdSet(ms) - stored
    ensures forall m :: m in Fresh(ms, stored) ==> m in ms
  {
    if ms != [] {
      var before, m := ms[..|ms| - 1], ms[|ms| - 1];
      FreshIsNewOnce(before, stored);
      assert ms == before + [m];
      IdsOfSnoc(before, m);
      IdsOfSnoc(Fresh(before, stored), m);
      assert forall k :: 0 <= k < |Fresh(before, stored)| ==> Fresh(before, stored)[k].id in IdSet(Fresh(before, stored));
    }
  }

  lemma IdsOfSnoc(ms: seq<Message>, m: Message)
    ensures IdSet(ms + [m]) == IdSet(ms) + {m.id}
  {
    assert forall x :: x in ms + [m] <==> x in ms || x == m;
    forall id | id in IdSet(ms) + {m.id} ensures id in IdSet(ms + [m]) {
      if id == m.id { assert m in ms + [m]; }
      else { var x :| x in ms && x.id == id; assert x in ms + [m]; }
    }
  }

  lemma {:induction false} InsertMembers(s: seq<Message>, m: Message)
    ensures forall x :: x in Insert(s, m) <==> x in s || x == m
    ensures multiset(Insert(s, m)) == multiset(s) + multiset{m}
  {
    if !(s == [] || s[|s| - 1].receivedAt <= m.receivedAt) {
      var init, last := s[..|s| - 1], s[|s| - 1];
      assert s == init + [last];
      InsertMembers(init, m);
    }
  }

  lemma {:induction false} InsertSorts(s: seq<Message>, m: Message)
    requires Sorted(s)
    ensures Sorted(Insert(s, m))
  {
    if !(s == [] || s[|s| - 1].receivedAt <= m.receivedAt) {
      var init, last := s[..|s| - 1], s[|s| - 1];
      InsertSorts(init, m);
      InsertMembers(init, m);
      var t := Insert(init, m);
      forall k | 0 <= k < |t| ensures t[k].receivedAt <= last.receivedAt {
        assert t[k] in t && (t[k] in init || t[k] == m);
      }
    }
  }

  lemma {:induction false} InsertUnique(s: seq<Message>, m: Message)
    requires Unique(s) && forall k :: 0 <= k < |s| ==> s[k].id != m.id
    ensures Unique(Insert(s, m))
  {
    if !(s == [] || s[|s| - 1].receivedAt <= m.receivedAt) {
      var init, last := s[..|s| - 1], s[|s| - 1];
      InsertUnique(init, m);
      InsertMembers(init, m);
      var t := Insert(init, m);
      forall k | 0 <= k < |t| ensures t[k].id != last.id {
        assert t[k] in t && (t[k] in init || t[k] == m);
      }
    }
  }

  ghost predicate Sorted(s: seq<Message>) {
    forall i, j :: 0 <= i < j < |s| ==> s[i].receivedAt <= s[j].receivedAt
  }

  lemma SameMembers(s: seq<Message>, t: seq<Message>)
    requires multiset(s) == multiset(t)
    ensures forall x :: x in s <==> x in t
    ensures IdSet(s) == IdSet(t)
  {
    assert forall x :: (x in s <==> x in multiset(s)) && (x in t <==> x in multiset(t));
  }

  /** Sorting by time of receipt rearranges the fresh messages and nothing else. */
  lemma {:induction false} ByTimeSorts(ms: seq<Message>)
    ensures Sorted(ByTime(ms)) && multiset(ByTime(ms)) == multiset(ms)
  {
    if ms != [] {
      var init, last := ms[..|ms| - 1], ms[|ms| - 1];
      assert ms == init + [last];
      ByTimeSorts(init);
      InsertMembers(ByTime(init), last);
      InsertSorts(ByTime(init), last);
    }
  }

  lemma {:induction false} ByTimeUnique(ms: seq<Message>)
    requires Unique(ms)
    ensures Unique(ByTime(ms))
  {
    if ms != [] {
      var init, last := ms[..|ms| - 1], ms[|ms| - 1];
      ByTimeUnique(init);
      ByTimeSorts(init);
      SameMembers(ByTime(init), init);
      assert forall k :: 0 <= k < |ByTime(init)| ==> ByTime(init)[k] in init;
      InsertUnique(ByTime(init), last);
    }
  }

  // ----- each message gets its turn at most once -----

  function Pending(d: Drive): set<string> {
    if d.stage.Handling? then IdSet(d.stage.rest) else {}
  }

  ghost predicate MessagesOk(w: World) {
    && (forall i, j :: 0 <= i < j < |w.consumed| ==> w.consumed[i] != w.consumed[j])
    && (forall id :: id in w.consumed ==> id in w.stored)
    && (forall who, id :: who in w.drives && id in Pending(w.drives[who]) ==> id in w.stored && id !in w.consumed)
    && (forall who :: who in w.drives && w.drives[who].stage.Handling? ==> Unique(w.drives[who].stage.rest))
    && (forall p, q, id :: p in w.drives && q in w.drives && p != q && id in Pending(w.drives[p]) ==>
          id !in Pending(w.drives[q]))
  }

  lemma HeadAndTail(rest: seq<Message>)
    requires rest != [] && Unique(rest)
    ensures Unique(rest[1..]) && IdSet(rest) == IdSet(rest[1..]) + {rest[0].id} && rest[0].id !in IdSet(rest[1..])
  {
    assert rest == [rest[0]] + rest[1..];
    assert forall x :: x in rest <==> x == rest[0] || x in rest[1..];
    forall id | id in IdSet(rest[1..]) ensures id != rest[0].id {
      var k :| 0 <= k < |rest[1..]| && rest[1..][k].id == id;
      assert rest[k + 1].id == id;
    }
  }

  lemma NewlyStored(w: World, w': World, who: nat, d: Drive)
    requires MessagesOk(w) && w'.consumed == w.consumed && w.stored <= w'.stored
    requires w'.drives == w.drives[who := d] && d.stage.Handling? && Unique(d.stage.rest)
    requires Pending(d) <= w'.stored - w.stored
    ensures MessagesOk(w')
  {
  }

  /** What a drive takes on is new: it was in nobody's hands and had no turn before. */
  lemma TakenOn(payload: seq<Message>, stored: set<string>)
    ensures var rest := ByTime(Fresh(payload, stored));
            Unique(rest) && IdSet(rest) == IdSet(payload) - stored && Sorted(rest)
  {
    var news := Fresh(payload, stored);
    FreshIsNewOnce(payload, stored);
    ByTimeSorts(news);
    ByTimeUnique(news);
    SameMembers(ByTime(news), news);
  }

  lemma StoreKeepsMessages(w: World, who: nat)
    requires MessagesOk(w)
    ensures MessagesOk(StoreStep(w, who))
  {
    if InBody(w, who) {
      TakenOn(w.hooks[w.drives[who].hook].payload, w.stored);
      NewlyStored(w, StoreStep(w, who), who, StoreStep(w, who).drives[who]);
    }
  }

  lemma HandleKeepsMessages(w: World, who: nat, outcome: Outcome)
    requires MessagesOk(w)
    ensures MessagesOk(HandleStep(w, who, outcome))
  {
    var w' := HandleStep(w, who, outcome);
    if w' != w {
      var rest := w.drives[who].stage.rest;
      HeadAndTail(rest);
      assert Pending(w'.drives[who]) == Pending(w.drives[who]) - {rest[0].id};
      assert rest[0].id in Pending(w.drives[who]);
    }
  }

  lemma StepKeepsMessages(w: World, e: Event)
    requires MessagesOk(w)
    ensures MessagesOk(Step(w, e))
  {
    match e
    case Store(who) => StoreKeepsMessages(w, who);
    case Handle(who, outcome) => HandleKeepsMessages(w, who, outcome);
    case _ => NothingTakenOn(w, Step(w, e));
  }

  lemma NothingTakenOn(w: World, w': World)
    requires MessagesOk(w) && w'.stored == w.stored && w'.consumed == w.consumed
    requires forall p :: p in w'.drives ==> w'.drives[p].stage.Claimed? || (p in w.drives && w'.drives[p] == w.drives[p])
    ensures MessagesOk(w')
  {
    assert forall p :: p in w'.drives && w'.drives[p].stage.Claimed? ==> Pending(w'.drives[p]) == {};
  }

  // ----- what every run guarantees -----

  ghost predicate Inv(w: World) {
    AttemptsOk(w) && MessagesOk(w)
  }

  lemma RunKeepsInv(w: World, es: seq<Event>)
    requires Inv(w)
    ensures Inv(Run(Step, w, es))
    decreases |es|
  {
    if es != [] {
      RunKeepsInv(w, es[..|es| - 1]);
      StepKeepsAttempts(Run(Step, w, es[..|es| - 1]), es[|es| - 1]);
      StepKeepsMessages(Run(Step, w, es[..|es| - 1]), es[|es| - 1]);
    }
  }

  /**
   In every run a message gets at most one committed turn, and the drive of an event gets past its
   attempt check at most MAX_EVENT_ATTEMPTS times, under different attempt numbers.
   */
  lemma TurnsAndDrivesAreBounded(w: World, es: seq<Event>)
    requires Initial(w)
    ensures var w' := Run(Step, w, es);
            && (forall i, j :: 0 <= i < j < |w'.consumed| ==> w'.consumed[i] != w'.consumed[j])
            && |w'.bodies| == |w'.hooks|
            && (forall k :: 0 <= k < |w'.bodies| ==> |w'.bodies[k]| <= MAX_EVENT_ATTEMPTS)
  {
    RunKeepsInv(w, es);
    var w' := Run(Step, w, es);
    forall k | 0 <= k < |w'.bodies| ensures |w'.bodies[k]| <= MAX_EVENT_ATTEMPTS {
      Attempts.DistinctBounded(w'.bodies[k], MAX_EVENT_ATTEMPTS);
    }
  }

  /** The consumption row never turns a driven message away: only unconsumed messages are handed on. */
  lemma HandedOnIsUnconsumed(w: World, es: seq<Event>, who: nat)
    requires Initial(w)
    ensures var w' := Run(Step, w, es);
            who in w'.drives && w'.drives[who].stage.Handling? && w'.drives[who].stage.rest != [] ==>
              w'.drives[who].stage.rest[0].id !in w'.consumed
  {
    RunKeepsInv(w, es);
    var w' := Run(Step, w, es);
    if who in w'.drives && w'.drives[who].stage.Handling? && w'.drives[who].stage.rest != [] {
      assert w'.drives[who].stage.rest[0].id in Pending(w'.drives[who]);
    }
  }

  /** Processed is for good, and a processed event is never claimed again. */
  lemma ProcessedIsFinal(w: World, es: seq<Event>, k: nat)
    requires k < |w.hooks| && w.hooks[k].processedAt.Some?
    ensures var w' := Run(Step, w, es);
            && k < |w'.hooks| && w'.hooks[k].processedAt.Some? && w'.hooks[k].attempts == w.hooks[k].attempts
    decreases |es|
  {
    if es != [] {
      ProcessedIsFinal(w, es[..|es| - 1], k);
    }
  }

  // ----- a stored message whose turn failed -----

  /** Stored, never consumed, and in nobody's hands. */
  predicate Lost(w: World, id: string) {
    && id in w.stored && id !in w.consumed
    && forall who :: who in w.drives ==> id !in Pending(w.drives[who])
  }

  lemma StepKeepsLost(w: World, e: Event, id: string)
    requires Lost(w, id)
    ensures Lost(Step(w, e), id)
  {
    match e
    case Store(who) =>
      if InBody(w, who) { TakenOn(w.hooks[w.drives[who].hook].payload, w.stored); }
    case Handle(who, outcome) =>
      var w' := Step(w, e);
      if w' != w {
        var rest := w.drives[who].stage.rest;
        assert rest[0].id in Pending(w.drives[who]);
        assert Pending(w'.drives[who]) <= Pending(w.drives[who]);
      }
    case _ =>
  }

  lemma LostForever(w: World, es: seq<Event>, id: string)
    requires Lost(w, id)
    ensures Lost(Run(Step, w, es), id)
    decreases |es|
  {
    if es != [] {
      LostForever(w, es[..|es| - 1], id);
      StepKeepsLost(Run(Step, w, es[..|es| - 1]), es[|es| - 1], id);
    }
  }

  /** A drive that still holds the message can give it its turn. */
  lemma {:induction false} HeldCanBeConsumed(w: World, who: nat, i: nat) returns (es: seq<Event>)
    requires who in w.drives && w.drives[who].stage.Handling? && i < |w.drives[who].stage.rest|
    ensures w.drives[who].stage.rest[i].id in Run(Step, w, es).consumed
    decreases i
  {
    var e := Handle(who, Committed);
    var w' := Step(w, e);
    var rest := w.drives[who].stage.rest;
    RunOne(Step, w, e);
    if i == 0 {
      es := [e];
    } else {
      assert w'.drives[who].stage.rest[i - 1] == rest[i];
      var more := HeldCanBeConsumed(w', who, i - 1);
      RunConcat(Step, w, [e], more);
      es := [e] + more;
    }
  }

  lemma UnusedId(drives: map<nat, Drive>) returns (who: nat)
    ensures who !in drives
  {
    who := GreaterThanAll(drives.Keys);
  }

  lemma {:induction false} GreaterThanAll(s: set<nat>) returns (n: nat)
    ensures forall x :: x in s ==> x < n
    decreases s
  {
    if s == {} {
      n := 0;
    } else {
      var x :| x in s;
      var m := GreaterThanAll(s - {x});
      n := if m <= x then x + 1 else m;
      assert forall y :: y in s ==> y == x || y in s - {x};
    }
  }

  /** A message the table does not hold yet is consumed once it is delivered and driven. */
  lemma NewCanBeConsumed(w: World, id: string) returns (es: seq<Event>)
    requires AttemptsOk(w) && w.autoReply && id !in w.stored
    ensures id in Run(Step, w, es).consumed
  {
    var who := UnusedId(w.drives);
    var payload := [Message(id, 0)];
    var e1, e2, e3 := Deliver(payload), Claim(who, |w.hooks|, w.clock), Store(who);
    var w1 := Step(w, e1);
    var w2 := Step(w1, e2);
    assert w2.hooks[|w.hooks|].payload == payload && w2.drives[who] == Drive(|w.hooks|, 1, Claimed);
    var w3 := Step(w2, e3);
    assert payload[..0] == [] && Fresh([], w.stored) == [] && IdSet([]) == {};
    assert Fresh(payload, w.stored) == payload;
    assert ByTime(payload) == payload by { assert ByTime([]) == []; }
    assert w3.drives[who].stage.rest == payload;
    RunThree(Step, w, e1, e2, e3);
    var more := HeldCanBeConsumed(w3, who, 0);
    RunConcat(Step, w, [e1, e2, e3], more);
    es := [e1, e2, e3] + more;
  }

  /**
   A drive only gives turns to messages it has itself just stored, so a retry passes over what an
   earlier attempt stored.  Exactly when can a message without a turn still get one?  Unless it is lost.
   */
  lemma ConsumableUnlessLost(w: World, id: string)
    requires AttemptsOk(w) && w.autoReply && id !in w.consumed
    ensures (exists es :: id in Run(Step, w, es).consumed) <==> !Lost(w, id)
  {
    if Lost(w, id) {
      forall es ensures id !in Run(Step, w, es).consumed { LostForever(w, es, id); }
    } else if id !in w.stored {
      var es := NewCanBeConsumed(w, id);
    } else {
      var who :| who in w.drives && id in Pending(w.drives[who]);
      var rest := w.drives[who].stage.rest;
      var i :| 0 <= i < |rest| && rest[i].id == id;
      var es := HeldCanBeConsumed(w, who, i);
    }
  }

  const ONE := [Message("m", 0)]

  /** The first drive of an event stores its message. */
  lemma StoredDrive() returns (w: World, es: seq<Event>)
    ensures Initial(w)
    ensures Run(Step, w, es) == World(0, true, [Leased(Hook(ONE, None, None, 0), 0)], {"m"}, [],
                                      map[0 := Drive(0, 1, Handling(ONE, true))], [[1]])
  {
    w := World(0, true, [], {}, [], map[], []);
    es := [Deliver(ONE), Claim(0, 0, 0), Store(0)];
    RunThree(Step, w, es[0], es[1], es[2]);
    var hook := Hook(ONE, None, None, 0);
    var w1 := Step(w, es[0]);
    assert w1 == w.(hooks := [hook], bodies := [[]]);
    var w2 := Step(w1, es[1]);
    assert w2 == w1.(hooks := [Leased(hook, 0)], drives := map[0 := Drive(0, 1, Claimed)]);
    OneIsFresh();
    assert w2.bodies[0] + [1] == [1] && EnteredBody(w2, 0) == [[1]];
  }

  lemma OneIsFresh()
    ensures ByTime(Fresh(ONE, {})) == ONE && IdSet(ONE) == {"m"}
  {
    assert ONE[..0] == [] && Fresh([], {}) == [] && IdSet([]) == {};
    assert Fresh(ONE, {}) == ONE && ByTime([]) == [] && ByTime(ONE) == ONE;
    assert IdSet(ONE) == {"m"} by { assert ONE[0] in ONE; }
  }

  /** Its turn is rolled back, and the drive ends without marking the event. */
  lemma FailedDrive() returns (w: World, es: seq<Event>)
    ensures Initial(w)
    ensures Run(Step, w, es) == World(0, true, [Leased(Hook(ONE, None, None, 0), 0)], {"m"}, [], map[], [[1]])
  {
    var es0;
    w, es0 := StoredDrive();
    var w0 := Run(Step, w, es0);
    var w1 := Step(w0, Handle(0, RolledBack));
    assert ONE[1..] == [];
    assert w1 == w0.(drives := map[0 := Drive(0, 1, Handling([], false))]);
    var w2 := Step(w1, Finish(0, 0));
    assert w2 == w1.(drives := map[]);
    RunSnoc(Step, w, es0, Handle(0, RolledBack));
    RunSnoc(Step, w, es0 + [Handle(0, RolledBack)], Finish(0, 0));
    es := es0 + [Handle(0, RolledBack)] + [Finish(0, 0)];
  }

  /** And a rolled-back turn does lose its message, though the retry marks the event processed. */
  lemma FailedTurnLosesMessage() returns (w: World, es: seq<Event>)
    ensures Initial(w)
    ensures var w' := Run(Step, w, es);
            && |w'.hooks| == 1 && w'.hooks[0].payload == ONE && w'.hooks[0].processedAt.Some?
            && Lost(w', "m")
  {
    var es0;
    w, es0 := FailedDrive();
    var w0 := Run(Step, w, es0);
    var late := EVENT_LEASE + 1;
    var retry := [Claim(0, 0, late), Store(0), Finish(0, late)];
    RunThree(Step, w0, retry[0], retry[1], retry[2]);
    RunConcat(Step, w, es0, retry);
    LostForever(w0, retry, "m");
    es := es0 + retry;
    var w1 := Step(w0, retry[0]);
    assert w1.drives == map[0 := Drive(0, 2, Claimed)] && w1.hooks[0].payload == ONE;
    assert ONE[..0] == [] && Fresh(ONE[..0], {"m"}) == [] && Fresh(ONE, {"m"}) == [];
    var w2 := Step(w1, retry[1]);
    assert w2.drives[0] == Drive(0, 2, Handling([], true));
  }

  // ----- without crashes every event is finished -----

  /** One drive left alone from its claim to its end; handlers may still fail in any way. */
  datatype Plan = Plan(who: nat, at: Time, outcomes: seq<Outcome>, markAt: Time)

  function Handles(who: nat, outcomes: seq<Outcome>): seq<Event> {
    seq(|outcomes|, i requires 0 <= i < |outcomes| => Handle(who, outcomes[i]))
  }

  function AfterStart(w: World, hook: nat, plan: Plan): World {
    Run(Step, w, [Claim(plan.who, hook, plan.at), Poison(plan.who, plan.markAt), Store(plan.who)])
  }

  function AfterDrive(w: World, hook: nat, plan: Plan): World {
    var handled := Run(Step, AfterStart(w, hook, plan), Handles(plan.who, plan.outcomes));
    Step(handled, Finish(plan.who, plan.markAt))
  }

  lemma {:induction false} FreshIsNoLonger(ms: seq<Message>, stored: set<string>)
    ensures |ByTime(Fresh(ms, stored))| <= |ms|
  {
    FreshLength(ms, stored);
    ByTimeSorts(Fresh(ms, stored));
    assert |multiset(ByTime(Fresh(ms, stored)))| == |multiset(Fresh(ms, stored))|;
  }

  lemma FreshLength(ms: seq<Message>, stored: set<string>)
    ensures |Fresh(ms, stored)| <= |ms|
  {
  }

  /** Ids of messages that are all different are as many as the messages. */
  lemma {:induction false} IdsCount(ms: seq<Message>)
    requires Unique(ms)
    ensures |IdSet(ms)| == |ms|
  {
    if ms != [] {
      var before, m := ms[..|ms| - 1], ms[|ms| - 1];
      assert ms == before + [m];
      IdsCount(before);
      IdsOfSnoc(before, m);
      assert m.id !in IdSet(before);
    }
  }

  /** How many messages of a payload get a turn: those whose id is not stored yet, once each. */
  function NewMessages(w: World, payload: seq<Message>): nat {
    if w.autoReply then |IdSet(payload) - w.stored| else 0
  }

  lemma TurnsToGive(w: World, payload: seq<Message>)
    ensures |if w.autoReply then ByTime(Fresh(payload, w.stored)) else []| == NewMessages(w, payload)
  {
    FreshIsNewOnce(payload, w.stored);
    IdsCount(Fresh(payload, w.stored));
    ByTimeSorts(Fresh(payload, w.stored));
    assert |multiset(ByTime(Fresh(payload, w.stored)))| == |multiset(Fresh(payload, w.stored))|;
  }

  /** Of the first `n` turns none failed. */
  predicate AllWell(outcomes: seq<Outcome>, n: nat) {
    forall i :: 0 <= i < n && i < |outcomes| ==> outcomes[i] == Committed
  }

  /** Enough handler outcomes empty the drive's list; nothing else about the events changes. */
  lemma {:induction false} HandlesEmpty(w: World, who: nat, outcomes: seq<Outcome>)
    requires who in w.drives && w.drives[who].stage.Handling?
    ensures var w' := Run(Step, w, Handles(who, outcomes));
            && w'.hooks == w.hooks && w'.clock == w.clock && w'.bodies == w.bodies
            && w'.drives.Keys == w.drives.Keys
            && w'.drives[who].stage.Handling? && w'.drives[who].hook == w.drives[who].hook
            && |w'.drives[who].stage.rest|
               == (if |outcomes| <= |w.drives[who].stage.rest| then |w.drives[who].stage.rest| - |outcomes| else 0)
            && (w'.drives[who].stage.ok <==>
                  w.drives[who].stage.ok && AllWell(outcomes, |w.drives[who].stage.rest|))
    decreases |outcomes|
  {
    if outcomes != [] {
      var n := |outcomes| - 1;
      HandlesEmpty(w, who, outcomes[..n]);
      assert Handles(who, outcomes)[..n] == Handles(who, outcomes[..n]);
    }
  }

  /** Where a drive stands when it has claimed, passed the attempt check or not, and stored. */
  lemma StartShape(w: World, hook: nat, plan: Plan)
    requires |w.bodies| == |w.hooks| && hook < |w.hooks| && plan.who !in w.drives && w.clock <= plan.at
    requires Claimable(w.hooks[hook], plan.at)
    ensures var w' := AfterStart(w, hook, plan);
            && |w'.bodies| == |w'.hooks| == |w.hooks| && w'.clock == plan.at
            && w'.hooks[hook].payload == w.hooks[hook].payload
            && (plan.who !in w'.drives ==>
                  w'.hooks[hook].processedAt.Some? && w.hooks[hook].attempts + 1 > MAX_EVENT_ATTEMPTS)
            && (plan.who in w'.drives ==>
                  && w'.hooks[hook] == Leased(w.hooks[hook], plan.at)
                  && w.hooks[hook].attempts + 1 <= MAX_EVENT_ATTEMPTS
                  && w'.drives[plan.who].hook == hook && w'.drives[plan.who].stage.Handling?
                  && w'.drives[plan.who].stage.ok
                  && |w'.drives[plan.who].stage.rest| == NewMessages(w, w.hooks[hook].payload)
                     <= |w.hooks[hook].payload|)
  {
    var who := plan.who;
    RunThree(Step, w, Claim(who, hook, plan.at), Poison(who, plan.markAt), Store(who));
    var w1 := Step(w, Claim(who, hook, plan.at));
    assert w1.hooks[hook] == Leased(w.hooks[hook], plan.at) && w1.drives[who].hook == hook;
    var w2 := Step(w1, Poison(who, plan.markAt));
    FreshIsNoLonger(w.hooks[hook].payload, w2.stored);
    TurnsToGive(w2, w.hooks[hook].payload);
  }

  /** The end of a drive that has given every message its turn. */
  lemma FinishShape(w: World, who: nat, at: Time)
    requires who in w.drives && w.drives[who].stage.Handling? && w.drives[who].stage.rest == []
    requires w.drives[who].hook < |w.hooks|
    ensures var w', k := Step(w, Finish(who, at)), w.drives[who].hook;
            && w'.bodies == w.bodies && |w'.hooks| == |w.hooks| && w'.clock == w.clock && who !in w'.drives
            && w'.hooks[k] == if w.drives[who].stage.ok then Processed(w.hooks[k], at) else w.hooks[k]
  {
  }

  /**
   An undisturbed drive finishes the event, or spends one of its first five attempts.  It finishes exactly when the
   attempts are used up or every message that is new got a turn that went well.
   */
  lemma DriveOnce(w: World, hook: nat, plan: Plan)
    requires |w.bodies| == |w.hooks| && hook < |w.hooks| && plan.who !in w.drives && w.clock <= plan.at
    requires Claimable(w.hooks[hook], plan.at) && |plan.outcomes| >= |w.hooks[hook].payload|
    ensures var w' := AfterDrive(w, hook, plan);
            && |w'.bodies| == |w'.hooks| == |w.hooks| && plan.who !in w'.drives && w'.clock == plan.at
            && w'.hooks[hook].payload == w.hooks[hook].payload
            && (w'.hooks[hook].processedAt.None? <==>
                  && w.hooks[hook].attempts + 1 <= 5
                  && !AllWell(plan.outcomes, NewMessages(w, w.hooks[hook].payload)))
            && (w'.hooks[hook].processedAt.None? ==>
                  && w'.hooks[hook].attempts == w.hooks[hook].attempts + 1 <= MAX_EVENT_ATTEMPTS
                  && w'.hooks[hook].lockedUntil == Some(plan.at + EVENT_LEASE))
  {
    var started := AfterStart(w, hook, plan);
    StartShape(w, hook, plan);
    if plan.who in started.drives {
      HandlesEmpty(started, plan.who, plan.outcomes);
      FinishShape(Run(Step, started, Handles(plan.who, plan.outcomes)), plan.who, plan.markAt);
    } else {
      NobodyHandles(started, plan.who, plan.outcomes);
    }
  }

  lemma NobodyHandles(w: World, who: nat, outcomes: seq<Outcome>)
    requires who !in w.drives
    ensures Run(Step, w, Handles(who, outcomes)) == w
    decreases |outcomes|
  {
    if outcomes != [] {
      var n := |outcomes| - 1;
      NobodyHandles(w, who, outcomes[..n]);
      assert Handles(who, outcomes)[..n] == Handles(who, outcomes[..n]);
    }
  }

  function AfterDrives(w: World, hook: nat, plans: seq<Plan>): World
    decreases |plans|
  {
    if plans == [] then w else AfterDrives(AfterDrive(w, hook, plans[0]), hook, plans[1..])
  }

  /** Each drive starts after the lease of the one before it. */
  ghost predicate Spaced(plans: seq<Plan>) {
    forall i :: 0 < i < |plans| ==> plans[i - 1].at + EVENT_LEASE < plans[i].at
  }

  lemma DrivenKeepsProcessed(w: World, hook: nat, plans: seq<Plan>)
    requires hook < |w.hooks| && w.hooks[hook].processedAt.Some?
    ensures var w' := AfterDrives(w, hook, plans); hook < |w'.hooks| && w'.hooks[hook].processedAt.Some?
    decreases |plans|
  {
    if plans != [] {
      var plan := plans[0];
      ProcessedIsFinal(w, [Claim(plan.who, hook, plan.at), Poison(plan.who, plan.markAt), Store(plan.who)], hook);
      ProcessedIsFinal(AfterStart(w, hook, plan), Handles(plan.who, plan.outcomes), hook);
      DrivenKeepsProcessed(AfterDrive(w, hook, plan), hook, plans[1..]);
    }
  }

  /**
   Whatever the handlers do, an event that has been claimed a times is processed after 6 - a more
   undisturbed drives: the sixth claim gives up on it.
   */
  lemma {:induction false} SixDrivesSuffice(w: World, hook: nat, plans: seq<Plan>)
    requires |w.bodies| == |w.hooks| && hook < |w.hooks| && w.hooks[hook].processedAt.None?
    requires plans != [] && |plans| + w.hooks[hook].attempts >= MAX_EVENT_ATTEMPTS + 1
    requires Spaced(plans) && w.clock <= plans[0].at && Claimable(w.hooks[hook], plans[0].at)
    requires forall i :: 0 <= i < |plans| ==> |plans[i].outcomes| >= |w.hooks[hook].payload|
    requires forall i :: 0 <= i < |plans| ==> plans[i].who == plans[0].who && plans[0].who !in w.drives
    ensures var w' := AfterDrives(w, hook, plans); hook < |w'.hooks| && w'.hooks[hook].processedAt.Some?
    decreases |plans|
  {
    DriveOnce(w, hook, plans[0]);
    var w1 := AfterDrive(w, hook, plans[0]);
    if w1.hooks[hook].processedAt.Some? {
      DrivenKeepsProcessed(w1, hook, plans[1..]);
    } else {
      SixDrivesSuffice(w1, hook, plans[1..]);
    }
  }
}
