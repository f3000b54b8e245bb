/**
 The global throttle for external providers: one row per provider holds the next instant at which a
 call is allowed, and requests take their slots under its lock, in lock order.
 */
module Throttle {
  import opened Clock

  /** What one request brings: its clock reading under the lock, and the gap it asks for after its slot. */
  datatype Request = Request(now: Time, interval: Time)

  function Max(a: Time, b: Time): Time { if a < b then b else a }

  /** The row's value after the requests `rs`, in lock order, from `start`. */
  function Next(start: Time, rs: seq<Request>): Time {
    if rs == [] then start
    else var last := rs[|rs| - 1]; Max(last.now, Next(start, rs[..|rs| - 1])) + last.interval
  }

  function Slots(start: Time, rs: seq<Request>): (slots: seq<Time>)
    ensures |slots| == |rs|
  {
    if rs == [] then []
    else Slots(start, rs[..|rs| - 1]) + [Max(rs[|rs| - 1].now, Next(start, rs[..|rs| - 1]))]
  }

  /** A schedule a provider would accept: nobody before asking or before the start, and every gap respected. */
  predicate Acceptable(start: Time, rs: seq<Request>, s: seq<Time>) {
    && |s| == |rs|
    && (s != [] ==> s[0] >= start)
    && (forall k :: 0 <= k < |s| ==> s[k] >= rs[k].now)
    && (forall k :: 1 <= k < |s| ==> s[k] >= s[k - 1] + rs[k - 1].interval)
  }

  function Total(rs: seq<Request>): Time {
    if rs == [] then 0 else Total(rs[..|rs| - 1]) + rs[|rs| - 1].interval
  }

  lemma {:induction false} SlotsAreAcceptable(start: Time, rs: seq<Request>)
    ensures Acceptable(start, rs, Slots(start, rs))
    ensures rs != [] ==> Next(start, rs) == Slots(start, rs)[|rs| - 1] + rs[|rs| - 1].interval
  {
    if rs != [] {
      SlotsAreAcceptable(start, rs[..|rs| - 1]);
    }
  }

  lemma {:induction false} SlotsAreEarliest(start: Time, rs: seq<Request>, s: seq<Time>)
    requires Acceptable(start, rs, s)
    ensures forall k :: 0 <= k < |rs| ==> Slots(start, rs)[k] <= s[k]
  {
    if rs != [] {
      var n := |rs| - 1;
      SlotsAreEarliest(start, rs[..n], s[..n]);
      SlotsAreAcceptable(start, rs[..n]);
      assert n > 0 ==> Slots(start, rs[..n])[n - 1] <= s[n - 1];
    }
  }

  /** The slots are the one schedule that is acceptable and nowhere later than any acceptable schedule. */
  lemma SlotsAreTheLeastSchedule(start: Time, rs: seq<Request>, s: seq<Time>)
    ensures s == Slots(start, rs) <==>
      && Acceptable(start, rs, s)
      && (forall t :: Acceptable(start, rs, t) ==> forall k :: 0 <= k < |rs| ==> s[k] <= t[k])
  {
    var slots := Slots(start, rs);
    SlotsAreAcceptable(start, rs);
    forall t | Acceptable(start, rs, t) ensures forall k :: 0 <= k < |rs| ==> slots[k] <= t[k] {
      SlotsAreEarliest(start, rs, t);
    }
    if Acceptable(start, rs, s) && (forall t :: Acceptable(start, rs, t) ==> forall k :: 0 <= k < |rs| ==> s[k] <= t[k]) {
      assert forall k :: 0 <= k < |rs| ==> slots[k] <= s[k] <= slots[k];
    }
  }

  /** Any two calls are apart by all the intervals between them, not only neighbours. */
  lemma {:induction false} GapsAddUp(start: Time, rs: seq<Request>, s: seq<Time>, i: nat, j: nat)
    requires Acceptable(start, rs, s) && i <= j < |rs|
    ensures s[j] >= s[i] + Total(rs[i..j])
    decreases j
  {
    if i < j {
      GapsAddUp(start, rs, s, i, j - 1);
      assert rs[i..j][..j - i - 1] == rs[i..j - 1];
    }
  }

  // ----- calls per window -----

  /** How many of the instants fall into the half-open window that starts at `t` and is `length` long. */
  function CountIn(s: seq<Time>, t: Time, length: Time): nat {
    if s == [] then 0
    else CountIn(s[..|s| - 1], t, length) + if t <= s[|s| - 1] < t + length then 1 else 0
  }

  predicate Apart(s: seq<Time>, gap: Time) {
    forall k :: 1 <= k < |s| ==> s[k] >= s[k - 1] + gap
  }

  lemma {:induction false} WindowFills(s: seq<Time>, t: Time, length: Time, gap: Time)
    requires gap > 0 && Apart(s, gap) && CountIn(s, t, length) > 0
    ensures s[|s| - 1] >= t + (CountIn(s, t, length) - 1) * gap
    ensures (CountIn(s, t, length) - 1) * gap < length
  {
    var n := |s| - 1;
    var before := CountIn(s[..n], t, length);
    if before > 0 {
      WindowFills(s[..n], t, length, gap);
      if before != CountIn(s, t, length) {
        assert (before - 1) * gap + gap == before * gap;
      }
    }
  }

  function CeilDiv(length: Time, gap: Time): int
    requires gap > 0
  {
    (length + gap - 1) / gap
  }

  lemma BelowCeil(n: int, length: Time, gap: Time)
    requires gap > 0 && (n - 1) * gap < length
    ensures n <= CeilDiv(length, gap)
  {
    var c := CeilDiv(length, gap);
    assert length <= c * gap;
    TimesMonotone(c, n - 1, gap);
  }

  lemma TimesMonotone(a: int, b: int, gap: Time)
    requires gap > 0
    ensures a <= b ==> a * gap <= b * gap
  {
  }

  lemma SparseWindow(s: seq<Time>, t: Time, length: Time, gap: Time)
    requires gap > 0 && length >= 0 && Apart(s, gap)
    ensures CountIn(s, t, length) <= CeilDiv(length, gap)
  {
    if CountIn(s, t, length) > 0 {
      WindowFills(s, t, length, gap);
      BelowCeil(CountIn(s, t, length), length, gap);
    }
  }

  /** With a gap of at least `gap` after every slot, no window holds more slots than gaps fit into it. */
  lemma RateIsBounded(start: Time, rs: seq<Request>, t: Time, length: Time, gap: Time)
    requires gap > 0 && length >= 0
    requires forall k :: 0 <= k < |rs| ==> rs[k].interval >= gap
    ensures CountIn(Slots(start, rs), t, length) <= CeilDiv(length, gap)
  {
    SlotsAreAcceptable(start, rs);
    SparseWindow(Slots(start, rs), t, length, gap);
  }

  /** One request after the other at the same instant, each asking for the same gap. */
  predicate Burst(start: Time, rs: seq<Request>, gap: Time) {
    forall k :: 0 <= k < |rs| ==> rs[k] == Request(start, gap)
  }

  lemma OneGapMore(n: nat, gap: Time)
    requires gap >= 0
    ensures n * gap >= 0 && (n + 1) * gap == n * gap + gap
  {
  }

  lemma {:induction false} NextAfterBurst(start: Time, rs: seq<Request>, gap: Time)
    requires gap >= 0 && Burst(start, rs, gap)
    ensures Next(start, rs) == start + |rs| * gap
  {
    if rs != [] {
      NextAfterBurst(start, rs[..|rs| - 1], gap);
      OneGapMore(|rs| - 1, gap);
    }
  }

  lemma {:induction false} SlotAt(start: Time, rs: seq<Request>, k: nat)
    requires k < |rs|
    ensures Slots(start, rs)[k] == Max(rs[k].now, Next(start, rs[..k]))
    decreases |rs|
  {
    if k < |rs| - 1 {
      SlotAt(start, rs[..|rs| - 1], k);
      assert rs[..|rs| - 1][..k] == rs[..k];
    }
  }

  /** The bound is met: a burst is served at exactly its interval, from the first free instant on. */
  lemma BurstIsServedEvenly(start: Time, rs: seq<Request>, gap: Time, k: nat)
    requires gap >= 0 && Burst(start, rs, gap) && k < |rs|
    ensures Slots(start, rs)[k] == start + k * gap
  {
    SlotAt(start, rs, k);
    NextAfterBurst(start, rs[..k], gap);
    OneGapMore(k, gap);
  }

  /**
   A caller sleeps until its slot outside the lock and may wake late.  When nobody is more than `slack`
   late, calls are apart by the intervals between them, less the slack.
   */
  lemma LateCallersLoseOnlyTheSlack(start: Time, rs: seq<Request>, calls: seq<Time>, slack: Time, i: nat, j: nat)
    requires |calls| == |rs| && i <= j < |rs|
    requires forall k :: 0 <= k < |rs| ==> Slots(start, rs)[k] <= calls[k] <= Slots(start, rs)[k] + slack
    ensures calls[j] >= calls[i] + Total(rs[i..j]) - slack
  {
    SlotsAreAcceptable(start, rs);
    GapsAddUp(start, rs, Slots(start, rs), i, j);
  }

  // ----- the table -----

  /** A reservation: who asks, when the row is created if there is none, and the request itself. */
  datatype Reservation = Reservation(provider: string, createdAt: Time, request: Request)

  /** The slot a reservation gets. */
  function SlotOf(rows: map<string, Time>, r: Reservation): Time {
    Max(r.request.now, if r.provider in rows then rows[r.provider] else r.createdAt)
  }

  function Reserved(rows: map<string, Time>, r: Reservation): map<string, Time> {
    rows[r.provider := SlotOf(rows, r) + r.request.interval]
  }

  function AfterAll(rows: map<string, Time>, rs: seq<Reservation>): map<string, Time> {
    if rs == [] then rows else Reserved(AfterAll(rows, rs[..|rs| - 1]), rs[|rs| - 1])
  }

  /** The requests of one provider among those of all. */
  function Own(rs: seq<Reservation>, provider: string): seq<Request> {
    if rs == [] then []
    else Own(rs[..|rs| - 1], provider) + if rs[|rs| - 1].provider == provider then [rs[|rs| - 1].request] else []
  }

  /** Providers do not delay each other: a provider's row is what its own requests alone make of it. */
  lemma {:induction false} ProvidersAreIndependent(rows: map<string, Time>, rs: seq<Reservation>, provider: string)
    requires provider in rows
    ensures provider in AfterAll(rows, rs)
    ensures AfterAll(rows, rs)[provider] == Next(rows[provider], Own(rs, provider))
  {
    if rs != [] {
      var n := |rs| - 1;
      ProvidersAreIndependent(rows, rs[..n], provider);
      if rs[n].provider == provider {
        assert Own(rs, provider) == Own(rs[..n], provider) + [rs[n].request];
        assert Own(rs, provider)[..|Own(rs, provider)| - 1] == Own(rs[..n], provider);
      } else {
        assert Own(rs, provider) == Own(rs[..n], provider);
      }
    }
  }

  /** Whatever other providers' requests come in between, a reservation gets the next slot of its own provider. */
  lemma ReservationGetsTheNextSlot(rows: map<string, Time>, rs: seq<Reservation>, r: Reservation)
    requires r.provider in rows
    ensures var own := Own(rs, r.provider);
      SlotOf(AfterAll(rows, rs), r) == Slots(rows[r.provider], own + [r.request])[|own|]
  {
    ProvidersAreIndependent(rows, rs, r.provider);
    var own := Own(rs, r.provider);
    assert (own + [r.request])[..|own|] == own;
  }

  class RateLimits {
    var nextAllowedAt: map<string, Time>

    constructor ()
      ensures nextAllowedAt == map[]
    {
      nextAllowedAt := map[];
    }

    /** Reserve the next slot; a caller that sleeps for `wait` from its reading of the clock wakes at its slot. */
    method ReserveSlot(r: Reservation) returns (wait: Time)
      modifies this
      ensures nextAllowedAt == Reserved(old(nextAllowedAt), r)
      ensures wait >= 0 && r.request.now + wait == SlotOf(old(nextAllowedAt), r)
      ensures var free := if r.provider in old(nextAllowedAt) then old(nextAllowedAt)[r.provider] else r.createdAt;
              && wait == (if free <= r.request.now then 0 else free - r.request.now)
              && nextAllowedAt == old(nextAllowedAt)[r.provider := r.request.now + wait + r.request.interval]
    {
      if r.provider !in nextAllowedAt {
        nextAllowedAt := nextAllowedAt[r.provider := r.createdAt];
      }
      var now := r.request.now;
      var slot := Max(now, nextAllowedAt[r.provider]);
      nextAllowedAt := nextAllowedAt[r.provider := slot + r.request.interval];
      wait := Max(0, slot - now);
    }
  }
}
