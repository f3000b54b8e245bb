/**
 Signing in by phone: how many challenges an hour a phone may be sent, and what a WhatsApp approval goes
 through before it signs a browser in.  Hashes are tokens; requests for one phone are served one at a time.
 */
module Login {
  import opened Wrappers
  import opened Clock
  import opened Runs

  // ----- phone numbers -----

  /** The digits of a text, whatever counts as one. */
  function Digits(text: string, digit: char -> bool): string {
    if text == "" then "" else (if digit(text[0]) then [text[0]] else "") + Digits(text[1..], digit)
  }

  function NormalizePhone(phone: string, digit: char -> bool): string {
    var digits := Digits(phone, digit);
    if |digits| == 10 then "91" + digits else digits
  }

  lemma {:induction false} DigitsOfDigits(text: string, digit: char -> bool)
    requires forall k :: 0 <= k < |text| ==> digit(text[k])
    ensures Digits(text, digit) == text
  {
    if text != "" {
      DigitsOfDigits(text[1..], digit);
    }
  }

  lemma {:induction false} DigitsAreDigits(text: string, digit: char -> bool)
    ensures forall k :: 0 <= k < |Digits(text, digit)| ==> digit(Digits(text, digit)[k])
  {
    if text != "" {
      DigitsAreDigits(text[1..], digit);
    }
  }

  /** The two counts of a request look at the same phone, though the second normalizes it again. */
  lemma NormalizingTwiceIsOnce(phone: string, digit: char -> bool)
    requires digit('9') && digit('1')
    ensures NormalizePhone(NormalizePhone(phone, digit), digit) == NormalizePhone(phone, digit)
  {
    DigitsAreDigits(phone, digit);
    DigitsOfDigits(NormalizePhone(phone, digit), digit);
  }

  // ----- the records of one phone -----

  datatype Status = Pending | Approved | Denied | Superseded | FallenBack | Consumed

  datatype Challenge = Challenge(contact: nat, phone: string, verifier: string, nonce: string, requestedAt: Time, expiresAt: Time,
                                 status: Status, outbound: Option<nat>)

  /** The records of one number, and the provider's ids of the messages that were sent out. */
  datatype Phone = Phone(number: string, verifications: seq<Time>, approvals: seq<Challenge>, sentAs: map<nat, string>)

  predicate Initial(p: Phone) { p.verifications == [] && p.approvals == [] }

  function CountSince(ts: seq<Time>, since: Time): nat {
    if ts == [] then 0 else CountSince(ts[..|ts| - 1], since) + if ts[|ts| - 1] >= since then 1 else 0
  }

  /** The instants in the closed hour that starts at `t`. */
  function CountInHour(ts: seq<Time>, t: Time): nat {
    if ts == [] then 0 else CountInHour(ts[..|ts| - 1], t) + if InHour(ts[|ts| - 1], t) then 1 else 0
  }

  predicate InHour(at: Time, t: Time) { t <= at <= t + HOUR }

  function RequestTimes(cs: seq<Challenge>): (ts: seq<Time>)
    ensures |ts| == |cs| && forall i :: 0 <= i < |cs| ==> ts[i] == cs[i].requestedAt
  {
    seq(|cs|, i requires 0 <= i < |cs| => cs[i].requestedAt)
  }

  function Recent(p: Phone, since: Time): nat {
    CountSince(p.verifications, since) + CountSince(RequestTimes(p.approvals), since)
  }

  function RecordsIn(p: Phone, t: Time): nat {
    CountInHour(p.verifications, t) + CountInHour(RequestTimes(p.approvals), t)
  }

  /**
   A request: its four readings of the clock, whether a linked contact inside the service window and a
   browser nonce allow an approval, the message row the approval goes out as (None when it was not
   stored), and whether sending it reported success.
   */
  datatype Request = Request(startedAt: Time, requestedAt: Time, recheckedAt: Time, createdAt: Time, expiresAt: Time,
                             approvable: bool, contact: nat, verifier: string, nonce: string,
                             outbound: Option<nat>, sent: bool)

  predicate InOrder(q: Request) {
    q.startedAt <= q.requestedAt <= q.recheckedAt <= q.createdAt
  }

  datatype Answer = TooMany | WhatsAppApproval | ReverseCode

  function Superseding(cs: seq<Challenge>): (superseded: seq<Challenge>)
    ensures |superseded| == |cs| && RequestTimes(superseded) == RequestTimes(cs)
  {
    seq(|cs|, i requires 0 <= i < |cs| => if cs[i].status == Pending then cs[i].(status := Superseded) else cs[i])
  }

  function NewChallenge(number: string, q: Request): Challenge {
    Challenge(q.contact, number, q.verifier, q.nonce, q.requestedAt, q.expiresAt, Pending, q.outbound)
  }

  function FellBack(c: Challenge): Challenge {
    if c.status == Pending then c.(status := FallenBack) else c
  }

  function Answered(p: Phone, q: Request, max: nat): Answer {
    if Recent(p, q.startedAt - HOUR) >= max then TooMany
    else if q.approvable && q.outbound.Some? && q.sent then WhatsAppApproval
    else if CountSince(p.verifications, q.recheckedAt - HOUR) >= max then TooMany
    else ReverseCode
  }

  /** What is committed; a refusal by the second count takes the fallback mark back, but not the approval. */
  function After(p: Phone, q: Request, max: nat): Phone {
    if Recent(p, q.startedAt - HOUR) >= max then p
    else
      var asked := if q.approvable then p.(approvals := Superseding(p.approvals) + [NewChallenge(p.number, q)]) else p;
      match Answered(p, q, max)
      case WhatsAppApproval => asked
      case TooMany => asked
      case ReverseCode =>
        var n := |p.approvals|;
        p.(verifications := p.verifications + [q.createdAt],
           approvals := if q.approvable then asked.approvals[n := FellBack(asked.approvals[n])] else p.approvals)
  }

  function AfterAll(p: Phone, qs: seq<Request>, max: nat): Phone {
    if qs == [] then p else After(AfterAll(p, qs[..|qs| - 1], max), qs[|qs| - 1], max)
  }

  // ----- the hourly limit -----

  lemma {:induction false} LaterSinceCountsFewer(ts: seq<Time>, since: Time, later: Time)
    requires since <= later
    ensures CountSince(ts, later) <= CountSince(ts, since)
  {
    if ts != [] { LaterSinceCountsFewer(ts[..|ts| - 1], since, later); }
  }

  lemma {:induction false} HourIsSince(ts: seq<Time>, t: Time, since: Time)
    requires since <= t
    ensures CountInHour(ts, t) <= CountSince(ts, since)
  {
    if ts != [] { HourIsSince(ts[..|ts| - 1], t, since); }
  }

  /** The second count of a request never refuses what the first let through, on either path. */
  lemma SecondCountNeverRefuses(p: Phone, q: Request, max: nat)
    requires InOrder(q)
    ensures Answered(p, q, max) == TooMany <==> Recent(p, q.startedAt - HOUR) >= max
  {
    LaterSinceCountsFewer(p.verifications, q.startedAt - HOUR, q.recheckedAt - HOUR);
  }

  /** How many records of a request fall into the hour from `t`. */
  function AddedIn(a: Answer, q: Request, t: Time): nat {
    match a
    case TooMany => 0
    case WhatsAppApproval => if InHour(q.requestedAt, t) then 1 else 0
    case ReverseCode =>
      (if q.approvable && InHour(q.requestedAt, t) then 1 else 0) + if InHour(q.createdAt, t) then 1 else 0
  }

  lemma CountIfAdded(ts: seq<Time>, at: Time, added: bool, t: Time)
    ensures CountInHour(ts + if added then [at] else [], t)
         == CountInHour(ts, t) + if added && InHour(at, t) then 1 else 0
  {
    if added {
      assert (ts + [at])[..|ts|] == ts;
    } else {
      assert ts + [] == ts;
    }
  }

  lemma AskedTimes(p: Phone, q: Request, max: nat)
    requires InOrder(q)
    ensures var p', a := After(p, q, max), Answered(p, q, max);
      && p'.verifications == p.verifications + (if a == ReverseCode then [q.createdAt] else [])
      && RequestTimes(p'.approvals) == RequestTimes(p.approvals)
           + if q.approvable && a != TooMany then [q.requestedAt] else []
  {
    SecondCountNeverRefuses(p, q, max);
  }

  lemma CodesAdded(p: Phone, q: Request, max: nat, t: Time)
    requires InOrder(q)
    ensures CountInHour(After(p, q, max).verifications, t)
         == CountInHour(p.verifications, t)
            + if Answered(p, q, max) == ReverseCode && InHour(q.createdAt, t) then 1 else 0
  {
    AskedTimes(p, q, max);
    CountIfAdded(p.verifications, q.createdAt, Answered(p, q, max) == ReverseCode, t);
  }

  lemma ApprovalsAdded(p: Phone, q: Request, max: nat, t: Time)
    requires InOrder(q)
    ensures CountInHour(RequestTimes(After(p, q, max).approvals), t)
         == CountInHour(RequestTimes(p.approvals), t)
            + if q.approvable && Answered(p, q, max) != TooMany && InHour(q.requestedAt, t) then 1 else 0
  {
    AskedTimes(p, q, max);
    CountIfAdded(RequestTimes(p.approvals), q.requestedAt, q.approvable && Answered(p, q, max) != TooMany, t);
  }

  lemma RecordsAdded(p: Phone, q: Request, max: nat, t: Time)
    requires InOrder(q)
    ensures RecordsIn(After(p, q, max), t) == RecordsIn(p, t) + AddedIn(Answered(p, q, max), q, t)
  {
    CodesAdded(p, q, max, t);
    ApprovalsAdded(p, q, max, t);
  }

  /** An accepted request with a record in the hour found fewer than `max` records of that hour before it. */
  lemma FewBefore(p: Phone, q: Request, max: nat, t: Time)
    requires InOrder(q) && AddedIn(Answered(p, q, max), q, t) > 0
    ensures RecordsIn(p, t) < max
  {
    SecondCountNeverRefuses(p, q, max);
    HourIsSince(p.verifications, t, q.startedAt - HOUR);
    HourIsSince(RequestTimes(p.approvals), t, q.startedAt - HOUR);
  }

  /** The last request that left a record in the hour, with its answer. */
  function LastIn(p: Phone, qs: seq<Request>, max: nat, t: Time): Option<(Request, Answer)> {
    if qs == [] then None
    else
      var before, q := qs[..|qs| - 1], qs[|qs| - 1];
      var a := Answered(AfterAll(p, before, max), q, max);
      if AddedIn(a, q, t) > 0 then Some((q, a)) else LastIn(p, before, max, t)
  }

  /** Both an approval and, since it could not be sent, a code, in the same hour. */
  predicate FellBackWithin(last: Option<(Request, Answer)>, t: Time) {
    && last.Some? && last.value.1 == ReverseCode && last.value.0.approvable
    && InHour(last.value.0.requestedAt, t) && InHour(last.value.0.createdAt, t)
  }

  /**
   In any closed hour a phone gets at most `max` records and one more; the one more is the code of the
   hour's last request, which fell back from an approval of the same hour.
   */
  lemma {:induction false} HourlyLimit(start: Phone, qs: seq<Request>, max: nat, t: Time)
    requires Initial(start) && forall k :: 0 <= k < |qs| ==> InOrder(qs[k])
    ensures RecordsIn(AfterAll(start, qs, max), t)
         <= max + if FellBackWithin(LastIn(start, qs, max, t), t) then 1 else 0
  {
    if qs != [] {
      var before, q := qs[..|qs| - 1], qs[|qs| - 1];
      var p := AfterAll(start, before, max);
      HourlyLimit(start, before, max, t);
      RecordsAdded(p, q, max, t);
      if AddedIn(Answered(p, q, max), q, t) > 0 {
        FewBefore(p, q, max, t);
      }
    }
  }

  /** A request at instant 0 that asks for a code, or falls back to one. */
  function AtZero(fallback: bool): Request {
    Request(0, 0, 0, 0, 0, fallback, 0, "", "", None, false)
  }

  /** Everything that was recorded lies at instant 0. */
  predicate AllAtZero(p: Phone) {
    && (forall k :: 0 <= k < |p.verifications| ==> p.verifications[k] == 0)
    && (forall k :: 0 <= k < |p.approvals| ==> p.approvals[k].requestedAt == 0)
  }

  lemma {:induction false} ZerosCount(ts: seq<Time>)
    requires forall k :: 0 <= k < |ts| ==> ts[k] == 0
    ensures CountSince(ts, -HOUR) == |ts| && CountInHour(ts, 0) == |ts|
  {
    if ts != [] { ZerosCount(ts[..|ts| - 1]); }
  }

  lemma AtZeroIsAdded(p: Phone, fallback: bool, max: nat)
    requires AllAtZero(p) && |p.verifications| + |p.approvals| < max
    ensures var p' := After(p, AtZero(fallback), max);
      && AllAtZero(p') && |p'.verifications| == |p.verifications| + 1
      && |p'.approvals| == |p.approvals| + if fallback then 1 else 0
  {
    ZerosCount(p.verifications);
    ZerosCount(RequestTimes(p.approvals));
    SecondCountNeverRefuses(p, AtZero(fallback), max);
    AskedTimes(p, AtZero(fallback), max);
    var times := RequestTimes(After(p, AtZero(fallback), max).approvals);
    assert forall k :: 0 <= k < |times| ==> times[k] == 0;
  }

  lemma {:induction false} Requests(start: Phone, max: nat, n: nat) returns (qs: seq<Request>)
    requires Initial(start) && n <= max && max > 0
    ensures forall k :: 0 <= k < |qs| ==> InOrder(qs[k])
    ensures var p := AfterAll(start, qs, max);
      AllAtZero(p) && |p.verifications| == n && |p.approvals| == if n == max then 1 else 0
  {
    if n == 0 {
      qs := [];
    } else {
      var before := Requests(start, max, n - 1);
      qs := before + [AtZero(n == max)];
      assert qs[..|qs| - 1] == before;
      AtZeroIsAdded(AfterAll(start, before, max), n == max, max);
    }
  }

  /** The limit is met exactly: `max - 1` codes and a fallback make `max + 1` records in one instant. */
  lemma FallbackExceedsByOne(start: Phone, max: nat) returns (qs: seq<Request>)
    requires Initial(start) && max > 0
    ensures forall k :: 0 <= k < |qs| ==> InOrder(qs[k])
    ensures RecordsIn(AfterAll(start, qs, max), 0) == max + 1
  {
    qs := Requests(start, max, max);
    var p := AfterAll(start, qs, max);
    ZerosCount(p.verifications);
    ZerosCount(RequestTimes(p.approvals));
  }

  /** The count is of the records since then, no more and no fewer. */
  lemma {:induction false} CountSinceExactly(ts: seq<Time>, since: Time)
    ensures CountSince(ts, since) == |set i: nat | i < |ts| && ts[i] >= since|
  {
    if ts != [] {
      var n := |ts| - 1;
      CountSinceExactly(ts[..n], since);
      var before := set i: nat | i < n && ts[..n][i] >= since;
      var all := set i: nat | i < |ts| && ts[i] >= since;
      assert all == if ts[n] >= since then before + {n} else before;
    }
  }

  // ----- what a request leaves behind -----

  /** The challenge is the one this request asked for. */
  ghost predicate AskedBy(c: Challenge, q: Request, number: string) {
    && c.verifier == q.verifier && c.nonce == q.nonce
    && c.contact == q.contact && c.phone == number
    && c.requestedAt == q.requestedAt && c.expiresAt == q.expiresAt && c.outbound == q.outbound
  }

  /** The phone's other challenges: whichever was waiting gives way. */
  ghost predicate GiveWay(cs: seq<Challenge>, cs': seq<Challenge>) {
    && |cs| <= |cs'|
    && forall i :: 0 <= i < |cs| ==>
         && (cs[i].status == Pending ==> cs'[i] == cs[i].(status := Superseded))
         && (cs[i].status != Pending ==> cs'[i] == cs[i])
  }

  /** The records before and after a request, by its answer. */
  ghost predicate Recorded(p: Phone, p': Phone, q: Request, answer: Answer, max: nat) {
    && p'.number == p.number && p'.sentAs == p.sentAs
    && (answer == TooMany <==> Recent(p, q.startedAt - HOUR) >= max)
    && (answer == TooMany ==> p' == p)
    && (answer == WhatsAppApproval ==> q.approvable && q.outbound.Some? && q.sent)
    && (answer == ReverseCode ==> !(q.approvable && q.outbound.Some? && q.sent))
    && p'.verifications == p.verifications + (if answer == ReverseCode then [q.createdAt] else [])
    && (answer != TooMany && q.approvable ==>
          && |p'.approvals| == |p.approvals| + 1 && GiveWay(p.approvals, p'.approvals)
          && AskedBy(p'.approvals[|p.approvals|], q, p.number)
          && p'.approvals[|p.approvals|].status == if answer == WhatsAppApproval then Pending else FallenBack)
    && (answer == TooMany || !q.approvable ==> p'.approvals == p.approvals)
  }

  lemma RequestIsRecorded(p: Phone, q: Request, max: nat)
    requires InOrder(q)
    ensures Recorded(p, After(p, q, max), q, Answered(p, q, max), max)
  {
    SecondCountNeverRefuses(p, q, max);
  }

  // ----- from approval to signed in -----

  datatype Event =
    | Ask(q: Request)
    | SendBlocked(id: nat)
    | Sent(row: nat, wamid: string)
    | Tap(id: nat, verifier: string, contact: nat, phone: string, context: string, approve: bool, at: Time)
    | Consume(id: nat, nonce: string, at: Time)

  /**
   The tap that decides: with the challenge's verifier, in time, from its contact and its phone, and in
   answer to the message it was sent as, looked up from its outbound row.
   */
  predicate Decides(p: Phone, c: Challenge, e: Event)
    requires e.Tap?
  {
    && c.status == Pending && c.expiresAt > e.at && c.verifier == e.verifier
    && c.contact == e.contact && c.phone == e.phone
    && c.outbound.Some? && c.outbound.value in p.sentAs && p.sentAs[c.outbound.value] == e.context
  }

  predicate Consumes(c: Challenge, e: Event)
    requires e.Consume?
  {
    c.status == Approved && c.expiresAt > e.at && c.nonce == e.nonce
  }

  function Step(max: nat): (Phone, Event) -> Phone {
    (p: Phone, e: Event) =>
      match e
      case Ask(q) => After(p, q, max)
      case SendBlocked(id) =>
        if id < |p.approvals| then p.(approvals := p.approvals[id := FellBack(p.approvals[id])]) else p
      case Sent(row, wamid) => p.(sentAs := p.sentAs[row := wamid])
      case Tap(id, _, _, _, _, approve, _) =>
        if id < |p.approvals| && Decides(p, p.approvals[id], e)
        then p.(approvals := p.approvals[id := p.approvals[id].(status := if approve then Approved else Denied)])
        else p
      case Consume(id, _, _) =>
        if id < |p.approvals| && Consumes(p.approvals[id], e)
        then p.(approvals := p.approvals[id := p.approvals[id].(status := Consumed)])
        else p
  }

  function Order(s: Status): nat {
    match s case Pending => 0 case Approved => 1 case _ => 2
  }

  /** The same challenge later on: its tokens fixed, its status never going back. */
  predicate Continues(c: Challenge, c': Challenge) {
    && c' == c.(status := c'.status)
    && (c'.status == c.status || Order(c.status) < Order(c'.status))
    && (c'.status == Consumed ==> c.status in {Approved, Consumed})
  }

  lemma StepContinues(max: nat, p: Phone, e: Event, id: nat)
    requires id < |p.approvals|
    ensures var p' := Step(max)(p, e);
      && |p'.approvals| >= |p.approvals| && Continues(p.approvals[id], p'.approvals[id])
      && (p.approvals[id].status != Approved && p'.approvals[id].status == Approved ==>
            e.Tap? && e.id == id && e.approve && Decides(p, p.approvals[id], e))
      && (p.approvals[id].status != Consumed && p'.approvals[id].status == Consumed ==>
            e.Consume? && e.id == id && Consumes(p.approvals[id], e))
  {
  }

  predicate ApprovedBy(p: Phone, e: Event, id: nat) {
    e.Tap? && e.id == id && e.approve && id < |p.approvals| && Decides(p, p.approvals[id], e)
  }

  /** The event is the request that the challenge `id` goes back to. */
  ghost predicate AskedFor(p: Phone, e: Event, id: nat, max: nat) {
    && e.Ask? && e.q.approvable && id == |p.approvals|
    && Recent(p, e.q.startedAt - HOUR) < max
  }

  /** The tap carries what the request was sent out with, in time, and answers the message it was sent as. */
  ghost predicate Answers(p: Phone, e: Event, q: Request, id: nat) {
    && e.Tap? && e.id == id && e.at < q.expiresAt
    && e.verifier == q.verifier && e.contact == q.contact && e.phone == p.number
    && q.outbound.Some? && q.outbound.value in p.sentAs && e.context == p.sentAs[q.outbound.value]
  }

  /** The browser that asked comes back in time. */
  ghost predicate ComesBack(e: Event, q: Request, id: nat) {
    e.Consume? && e.id == id && e.nonce == q.nonce && e.at < q.expiresAt
  }

  lemma DecidesItsRequest(p: Phone, e: Event, q: Request, id: nat)
    requires id < |p.approvals| && AskedBy(p.approvals[id], q, p.number)
    ensures e.Tap? && e.id == id ==>
      (Decides(p, p.approvals[id], e) <==> p.approvals[id].status == Pending && Answers(p, e, q, id))
    ensures e.Consume? && e.id == id ==>
      (Consumes(p.approvals[id], e) <==> p.approvals[id].status == Approved && ComesBack(e, q, id))
  {
  }

  lemma {:induction false} NumberStays(p: Phone, max: nat, es: seq<Event>)
    ensures Run(Step(max), p, es).number == p.number
    decreases |es|
  {
    if es != [] { NumberStays(p, max, es[..|es| - 1]); }
  }

  lemma NewChallengeIsAskedFor(p: Phone, max: nat, e: Event, id: nat)
    requires |p.approvals| <= id < |Step(max)(p, e).approvals|
    ensures AskedFor(p, e, id, max)
    ensures var p' := Step(max)(p, e);
      p'.number == p.number && AskedBy(p'.approvals[id], e.q, p.number) && p'.approvals[id].status in {Pending, FallenBack}
  {
  }

  /** Every challenge goes back to a request of the run, and still holds what that request asked with. */
  lemma {:induction false} ChallengesAreAskedFor(start: Phone, max: nat, es: seq<Event>, id: nat) returns (i: nat)
    requires Initial(start) && id < |Run(Step(max), start, es).approvals|
    ensures i < |es| && AskedFor(Run(Step(max), start, es[..i]), es[i], id, max)
    ensures AskedBy(Run(Step(max), start, es).approvals[id], es[i].q, start.number)
    decreases |es|
  {
    assert es != [];
    var n := |es| - 1;
    var p := Run(Step(max), start, es[..n]);
    NumberStays(start, max, es[..n]);
    if id < |p.approvals| {
      i := ChallengesAreAskedFor(start, max, es[..n], id);
      StepContinues(max, p, es[n], id);
      assert es[..n][..i] == es[..i] && es[..n][i] == es[i];
    } else {
      NewChallengeIsAskedFor(p, max, es[n], id);
      i := n;
    }
  }

  lemma {:induction false} StillAskedBy(p: Phone, max: nat, es: seq<Event>, q: Request, id: nat)
    requires id < |p.approvals| && AskedBy(p.approvals[id], q, p.number)
    ensures var p' := Run(Step(max), p, es); id < |p'.approvals| && AskedBy(p'.approvals[id], q, p'.number)
    decreases |es|
  {
    if es != [] {
      StillAskedBy(p, max, es[..|es| - 1], q, id);
      StepContinues(max, Run(Step(max), p, es[..|es| - 1]), es[|es| - 1], id);
    }
  }

  /** An approved challenge was approved by a tap of the run while it was pending. */
  lemma {:induction false} ApprovalWasTapped(start: Phone, max: nat, es: seq<Event>, id: nat) returns (j: nat)
    requires Initial(start)
    requires var p := Run(Step(max), start, es);
      id < |p.approvals| && p.approvals[id].status in {Approved, Consumed}
    ensures j < |es| && ApprovedBy(Run(Step(max), start, es[..j]), es[j], id)
    decreases |es|
  {
    assert es != [];
    var n := |es| - 1;
    var p := Run(Step(max), start, es[..n]);
    if id >= |p.approvals| {
      NewChallengeIsAskedFor(p, max, es[n], id);
      assert false;
    } else {
      StepContinues(max, p, es[n], id);
      if p.approvals[id].status in {Approved, Consumed} {
        j := ApprovalWasTapped(start, max, es[..n], id);
        assert es[..n][..j] == es[..j] && es[..n][j] == es[j];
      } else {
        j := n;
      }
    }
  }

  /** Only the newest challenge waits for an answer. */
  ghost predicate NewestWaits(p: Phone) {
    forall i :: 0 <= i < |p.approvals| && p.approvals[i].status == Pending ==> i == |p.approvals| - 1
  }

  lemma StepKeepsNewest(max: nat, p: Phone, e: Event)
    requires NewestWaits(p)
    ensures NewestWaits(Step(max)(p, e))
  {
    var p' := Step(max)(p, e);
    forall i | 0 <= i < |p.approvals| ensures p'.approvals[i].status == Pending ==> p.approvals[i].status == Pending {
      StepContinues(max, p, e, i);
    }
  }

  /** At any time at most one challenge of a phone waits for an answer: that of the latest request. */
  lemma {:induction false} OneChallengeWaits(start: Phone, max: nat, es: seq<Event>)
    requires Initial(start)
    ensures NewestWaits(Run(Step(max), start, es))
    decreases |es|
  {
    if es != [] {
      OneChallengeWaits(start, max, es[..|es| - 1]);
      StepKeepsNewest(max, Run(Step(max), start, es[..|es| - 1]), es[|es| - 1]);
    }
  }

  /** The event signs the browser of challenge `id` in. */
  ghost predicate SignsIn(p: Phone, e: Event, id: nat, max: nat) {
    && id < |p.approvals| && p.approvals[id].status != Consumed
    && id < |Step(max)(p, e).approvals| && Step(max)(p, e).approvals[id].status == Consumed
  }

  /**
   Whoever is signed in has asked for it: the challenge goes back to a request, the citizen said Yes with that
   request's verifier, from its contact and this number, in answer to the message it was sent as and in time,
   while no later challenge had been asked for; and the browser brought that request's nonce, in time.
   */
  lemma SignInFollowsApproval(start: Phone, max: nat, es: seq<Event>, k: nat, id: nat) returns (i: nat, j: nat)
    requires Initial(start) && k < |es| && SignsIn(Run(Step(max), start, es[..k]), es[k], id, max)
    ensures i < j < k
    ensures AskedFor(Run(Step(max), start, es[..i]), es[i], id, max)
    ensures Answers(Run(Step(max), start, es[..j]), es[j], es[i].q, id) && es[j].approve
    ensures |Run(Step(max), start, es[..j]).approvals| == id + 1
    ensures ComesBack(es[k], es[i].q, id)
  {
    var p := Run(Step(max), start, es[..k]);
    StepContinues(max, p, es[k], id);
    j := ApprovalWasTapped(start, max, es[..k], id);
    assert es[..k][..j] == es[..j] && es[..k][j] == es[j];
    var tapped := Run(Step(max), start, es[..j]);
    OneChallengeWaits(start, max, es[..j]);
    i := ChallengesAreAskedFor(start, max, es[..j], id);
    assert es[..j][..i] == es[..i] && es[..j][i] == es[i];
    NumberStays(start, max, es[..j]);
    NumberStays(start, max, es[..k]);
    DecidesItsRequest(tapped, es[j], es[i].q, id);
    RunConcat(Step(max), start, es[..j], es[j..k]);
    assert es[..j] + es[j..k] == es[..k];
    StillAskedBy(tapped, max, es[j..k], es[i].q, id);
    DecidesItsRequest(p, es[k], es[i].q, id);
  }

  lemma {:induction false} ConsumedStays(max: nat, p: Phone, es: seq<Event>, id: nat)
    requires id < |p.approvals| && p.approvals[id].status == Consumed
    ensures var p' := Run(Step(max), p, es); id < |p'.approvals| && p'.approvals[id].status == Consumed
    decreases |es|
  {
    if es != [] {
      ConsumedStays(max, p, es[..|es| - 1], id);
      StepContinues(max, Run(Step(max), p, es[..|es| - 1]), es[|es| - 1], id);
    }
  }

  /** And no challenge signs in twice. */
  lemma SignInHappensOnce(start: Phone, max: nat, es: seq<Event>, j: nat, k: nat, id: nat)
    requires j < k < |es|
    requires SignsIn(Run(Step(max), start, es[..j]), es[j], id, max)
    ensures !SignsIn(Run(Step(max), start, es[..k]), es[k], id, max)
  {
    RunSnoc(Step(max), start, es[..j], es[j]);
    assert es[..j] + [es[j]] == es[..j + 1];
    RunConcat(Step(max), start, es[..j + 1], es[j + 1..k]);
    assert es[..j + 1] + es[j + 1..k] == es[..k];
    ConsumedStays(max, Run(Step(max), start, es[..j + 1]), es[j + 1..k], id);
  }

  // ----- and the other way: who asks and says Yes is signed in -----

  /** Nothing settles the challenge: no newer request, no failed sending, no answer to it. */
  ghost predicate LeavesOpen(p: Phone, e: Event, q: Request, id: nat) {
    !e.Ask? && e != SendBlocked(id) && !Answers(p, e, q, id)
  }

  ghost predicate LeftOpen(p: Phone, max: nat, es: seq<Event>, q: Request, id: nat) {
    forall k :: 0 <= k < |es| ==> LeavesOpen(Run(Step(max), p, es[..k]), es[k], q, id)
  }

  lemma StepLeavesOpen(p: Phone, max: nat, e: Event, q: Request, id: nat)
    requires id < |p.approvals| && AskedBy(p.approvals[id], q, p.number) && p.approvals[id].status == Pending
    requires LeavesOpen(p, e, q, id)
    ensures id < |Step(max)(p, e).approvals| && Step(max)(p, e).approvals[id] == p.approvals[id]
  {
    DecidesItsRequest(p, e, q, id);
  }

  lemma {:induction false} StaysOpen(p: Phone, max: nat, es: seq<Event>, q: Request, id: nat)
    requires id < |p.approvals| && AskedBy(p.approvals[id], q, p.number) && p.approvals[id].status == Pending
    requires LeftOpen(p, max, es, q, id)
    ensures var p' := Run(Step(max), p, es);
      id < |p'.approvals| && p'.approvals[id] == p.approvals[id] && p'.number == p.number
    decreases |es|
  {
    if es != [] {
      var n := |es| - 1;
      assert forall k :: 0 <= k < n ==> es[..n][..k] == es[..k];
      StaysOpen(p, max, es[..n], q, id);
      NumberStays(p, max, es);
      StepLeavesOpen(Run(Step(max), p, es[..n]), max, es[n], q, id);
    }
  }

  /**
   After a request answered with an approval, and as long as nothing settles its challenge, a tap on it decides it
   exactly when it answers that request - and as the citizen tapped.
   */
  lemma TapDecidesExactly(p: Phone, max: nat, q: Request, es: seq<Event>, tap: Event)
    requires InOrder(q) && Answered(p, q, max) == WhatsAppApproval && tap.Tap? && tap.id == |p.approvals|
    requires LeftOpen(Step(max)(p, Ask(q)), max, es, q, tap.id)
    ensures var p1 := Run(Step(max), Step(max)(p, Ask(q)), es);
            var p2 := Step(max)(p1, tap);
      && tap.id < |p2.approvals| && AskedBy(p2.approvals[tap.id], q, p2.number)
      && (p2.approvals[tap.id].status == Approved <==> Answers(p1, tap, q, tap.id) && tap.approve)
      && (p2.approvals[tap.id].status == Denied <==> Answers(p1, tap, q, tap.id) && !tap.approve)
      && (p2.approvals[tap.id].status == Pending <==> !Answers(p1, tap, q, tap.id))
  {
    var p0 := Step(max)(p, Ask(q));
    RequestIsRecorded(p, q, max);
    StaysOpen(p0, max, es, q, tap.id);
    DecidesItsRequest(Run(Step(max), p0, es), tap, q, tap.id);
  }

  ghost predicate NobodyCameBack(es: seq<Event>, q: Request, id: nat) {
    forall k :: 0 <= k < |es| ==> !ComesBack(es[k], q, id)
  }

  lemma StepLeavesApproved(p: Phone, max: nat, e: Event, q: Request, id: nat)
    requires id < |p.approvals| && AskedBy(p.approvals[id], q, p.number) && p.approvals[id].status == Approved
    ensures id < |Step(max)(p, e).approvals|
    ensures Step(max)(p, e).approvals[id].status == if ComesBack(e, q, id) then Consumed else Approved
  {
    DecidesItsRequest(p, e, q, id);
  }

  lemma {:induction false} StaysApproved(p: Phone, max: nat, es: seq<Event>, q: Request, id: nat)
    requires id < |p.approvals| && AskedBy(p.approvals[id], q, p.number) && p.approvals[id].status == Approved
    requires NobodyCameBack(es, q, id)
    ensures var p' := Run(Step(max), p, es);
      id < |p'.approvals| && AskedBy(p'.approvals[id], q, p'.number) && p'.approvals[id].status == Approved
    decreases |es|
  {
    if es != [] {
      var n := |es| - 1;
      StaysApproved(p, max, es[..n], q, id);
      StillAskedBy(p, max, es, q, id);
      StepLeavesApproved(Run(Step(max), p, es[..n]), max, es[n], q, id);
    }
  }

  /**
   Once the citizen has said Yes, and whatever is asked or tapped since, the first browser that comes back with the
   request's nonce in time is signed in, and no other.
   */
  lemma SignsInExactly(p: Phone, max: nat, q: Request, es: seq<Event>, e: Event, id: nat)
    requires id < |p.approvals| && AskedBy(p.approvals[id], q, p.number) && p.approvals[id].status == Approved
    requires NobodyCameBack(es, q, id)
    ensures SignsIn(Run(Step(max), p, es), e, id, max) <==> ComesBack(e, q, id)
  {
    StaysApproved(p, max, es, q, id);
    StepLeavesApproved(Run(Step(max), p, es), max, e, q, id);
  }

  // ----- the requests, statement by statement -----

  class LoginRequests {
    const max: nat
    const number: string
    var verifications: seq<Time>
    var approvals: seq<Challenge>
    var sentAs: map<nat, string>

    function Now(): Phone
      reads this
    {
      Phone(number, verifications, approvals, sentAs)
    }

    constructor (number: string, max: nat)
      ensures Initial(Now()) && this.number == number && this.max == max
    {
      this.number, this.max := number, max;
      verifications, approvals, sentAs := [], [], map[];
    }

    /** create_login_approval: the phone's pending challenges give way to the new one. */
    method CreateLoginApproval(q: Request) returns (id: nat)
      modifies this`approvals
      ensures id == |old(approvals)|
      ensures approvals == Superseding(old(approvals))
        + [Challenge(q.contact, number, q.verifier, q.nonce, q.requestedAt, q.expiresAt, Pending, None)]
    {
      id := |approvals|;
      approvals := Superseding(approvals)
        + [Challenge(q.contact, number, q.verifier, q.nonce, q.requestedAt, q.expiresAt, Pending, None)];
    }

    method MarkLoginApprovalFallback(id: nat)
      requires id < |approvals|
      modifies this`approvals
      ensures approvals == old(approvals)[id := FellBack(old(approvals)[id])]
    {
      if approvals[id].status == Pending {
        approvals := approvals[id := approvals[id].(status := FallenBack)];
      }
    }

    /** create_verification; false when this phone has too many codes already. */
    method CreateVerification(recheckedAt: Time, createdAt: Time) returns (ok: bool)
      modifies this`verifications
      ensures ok <==> CountSince(old(verifications), recheckedAt - HOUR) < max
      ensures verifications == if ok then old(verifications) + [createdAt] else old(verifications)
    {
      ok := CountSince(verifications, recheckedAt - HOUR) < max;
      if ok {
        verifications := verifications + [createdAt];
      }
    }

    /** request_code. */
    method RequestCode(q: Request) returns (answer: Answer)
      modifies this
      ensures answer == Answered(old(Now()), q, max)
      ensures Now() == After(old(Now()), q, max)
      ensures InOrder(q) ==> Recorded(old(Now()), Now(), q, answer, max)
    {
      ghost var before := Now();
      answer := ServeRequest(q);
      if InOrder(q) {
        RequestIsRecorded(before, q, max);
      }
    }

    /** Its statements.  The uncommitted writes are undone when the second count refuses. */
    method ServeRequest(q: Request) returns (answer: Answer)
      modifies this
      ensures answer == Answered(old(Now()), q, max)
      ensures Now() == After(old(Now()), q, max)
    {
      if Recent(Now(), q.startedAt - HOUR) >= max {
        return TooMany;
      }
      var committed := approvals;
      if q.approvable {
        var id := CreateLoginApproval(q);
        if q.outbound.Some? {
          approvals := approvals[id := approvals[id].(outbound := q.outbound)];
        }
        committed := approvals;
        if q.outbound.Some? && q.sent {
          return WhatsAppApproval;
        }
        MarkLoginApprovalFallback(id);
      }
      var ok := CreateVerification(q.recheckedAt, q.createdAt);
      if !ok {
        approvals := committed;
        return TooMany;
      }
      answer := ReverseCode;
    }

    method DecideLoginApproval(e: Event) returns (decided: bool)
      requires e.Tap?
      modifies this
      ensures Now() == Step(max)(old(Now()), e)
      ensures decided <==> e.id < |old(approvals)| && Decides(old(Now()), old(approvals)[e.id], e)
      ensures decided <==> e.id < |old(approvals)| &&
                           var c := old(approvals)[e.id];
                           && c.status == Pending && e.at < c.expiresAt
                           && (e.verifier, e.contact, e.phone) == (c.verifier, c.contact, c.phone)
                           && c.outbound.Some? && c.outbound.value in sentAs && e.context == sentAs[c.outbound.value]
      ensures approvals == if decided then old(approvals)[e.id := old(approvals)[e.id].(status :=
                                             if e.approve then Approved else Denied)] else old(approvals)
    {
      decided := false;
      if e.id < |approvals| {
        var c := approvals[e.id];
        var sent := c.outbound.Some? && c.outbound.value in sentAs && sentAs[c.outbound.value] == e.context;
        decided := sent && c.status == Pending && c.expiresAt > e.at && c.verifier == e.verifier
                   && c.contact == e.contact && c.phone == e.phone;
      }
      if decided {
        approvals := approvals[e.id := approvals[e.id].(status := if e.approve then Approved else Denied)];
      }
    }

    method ConsumeLoginApproval(e: Event) returns (signedIn: bool)
      requires e.Consume?
      modifies this
      ensures Now() == Step(max)(old(Now()), e)
      ensures signedIn <==> e.id < |old(approvals)| &&
                            var c := old(approvals)[e.id];
                            c.status == Approved && e.at < c.expiresAt && e.nonce == c.nonce
      ensures approvals == if signedIn then old(approvals)[e.id := old(approvals)[e.id].(status := Consumed)]
                           else old(approvals)
    {
      signedIn := e.id < |approvals| && Consumes(approvals[e.id], e);
      if signedIn {
        approvals := approvals[e.id := approvals[e.id].(status := Consumed)];
      }
    }
  }
}
