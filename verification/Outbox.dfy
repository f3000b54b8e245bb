/**
 The outbound half of the message table: replies are stored before they are sent, and a row lease
 decides who may send one.  A row's id is its position in creation order.
 */
module Outbox {
  import opened Wrappers
  import opened Clock

  type RowId = nat

  /** The families of idempotency keys; each prints to a string of its own shape. */
  datatype Key =
    | TurnKey(conversation: nat, inbound: string, kind: string)
    | PipelineKey(conversation: nat, status: string, grievance: string)
    | LoginDecisionKey(inbound: string)
    | VerifyKey(inbound: string)
    | StatusKey(inbound: string)
    | RegisteredKey(grievance: string)
    | CancelledKey(grievance: string)
    | LoginApprovalKey(challenge: nat)

  /** A reply as its author hands it over; of the payload only the button ids matter here. */
  datatype Reply = Reply(key: Key, contact: nat, conversation: Option<nat>, kind: string,
                         buttons: seq<string>, inResponseTo: Option<string>)

  datatype Status = Pending | Sending | Sent | Failed | Blocked24h

  datatype Row = Row(reply: Reply, status: Status, lockedUntil: Option<Time>, attempts: nat,
                     wamid: Option<string>)

  function NewRow(reply: Reply): Row {
    Row(reply, Pending, None, 0, None)
  }

  predicate HasKey(rows: seq<Row>, key: Key) {
    exists i :: 0 <= i < |rows| && rows[i].reply.key == key
  }

  /** Insert unless the idempotency key is taken. */
  function Stored(rows: seq<Row>, reply: Reply): seq<Row> {
    if HasKey(rows, reply.key) then rows else rows + [NewRow(reply)]
  }

  /** Waiting, or leased by a sender whose lease has run out.  A null lease end never has. */
  predicate Claimable(row: Row, now: Time) {
    || row.status == Pending
    || (row.status == Sending && row.lockedUntil.Some? && row.lockedUntil.value < now)
  }

  function Leased(row: Row, now: Time, lease: Time): Row {
    row.(status := Sending, lockedUntil := Some(now + lease), attempts := row.attempts + 1)
  }

  /** The mark carries no proof of owning the lease: it applies to whatever the row is now. */
  function Marked(row: Row, status: Status, wamid: Option<string>): Row {
    row.(status := status, lockedUntil := None, wamid := if wamid.Some? then wamid else row.wamid)
  }

  predicate Terminal(row: Row) {
    row.status in {Sent, Failed, Blocked24h}
  }

  /** Oldest first, at most `limit` of the claimable rows from position `from` on. */
  function Sweepable(rows: seq<Row>, from: nat, limit: nat, now: Time): (ids: seq<RowId>)
    requires from <= |rows|
    decreases |rows| - from
  {
    if from == |rows| || limit == 0 then []
    else if Claimable(rows[from], now) then [from] + Sweepable(rows, from + 1, limit - 1, now)
    else Sweepable(rows, from + 1, limit, now)
  }

  lemma {:induction false} SweepIsClaimable(rows: seq<Row>, from: nat, limit: nat, now: Time)
    requires from <= |rows|
    ensures var ids := Sweepable(rows, from, limit, now);
            && |ids| <= limit
            && (forall k :: 0 <= k < |ids| ==> from <= ids[k] < |rows| && Claimable(rows[ids[k]], now))
            && (forall j, k :: 0 <= j < k < |ids| ==> ids[j] < ids[k])
    decreases |rows| - from
  {
    if from < |rows| && limit > 0 {
      SweepIsClaimable(rows, from + 1, if Claimable(rows[from], now) then limit - 1 else limit, now);
    }
  }

  lemma {:induction false} SweepTakesOldest(rows: seq<Row>, from: nat, limit: nat, now: Time, i: RowId)
    requires from <= i < |rows| && Claimable(rows[i], now) && i !in Sweepable(rows, from, limit, now)
    ensures var ids := Sweepable(rows, from, limit, now);
            |ids| == limit && forall k :: 0 <= k < |ids| ==> ids[k] < i
    decreases |rows| - from
  {
    if limit > 0 {
      if Claimable(rows[from], now) {
        var rest := Sweepable(rows, from + 1, limit - 1, now);
        var ids := Sweepable(rows, from, limit, now);
        assert ids == [from] + rest;
        assert ids[0] == from && forall k :: 0 <= k < |rest| ==> ids[k + 1] == rest[k];
        SweepTakesOldest(rows, from + 1, limit - 1, now, i);
      } else {
        SweepTakesOldest(rows, from + 1, limit, now, i);
      }
    }
  }

  /**
   The sweep sees exactly the claimable rows, oldest first: nothing else, nothing twice, and a
   claimable row it leaves out is younger than a full batch of rows it took.
   */
  lemma SweepIsOldestClaimable(rows: seq<Row>, from: nat, limit: nat, now: Time)
    requires from <= |rows|
    ensures var ids := Sweepable(rows, from, limit, now);
            && |ids| <= limit
            && (forall k :: 0 <= k < |ids| ==> from <= ids[k] < |rows| && Claimable(rows[ids[k]], now))
            && (forall j, k :: 0 <= j < k < |ids| ==> ids[j] < ids[k])
            && (forall i :: from <= i < |rows| && Claimable(rows[i], now) && i !in ids ==>
                  |ids| == limit && forall k :: 0 <= k < |ids| ==> ids[k] < i)
  {
    SweepIsClaimable(rows, from, limit, now);
    forall i | from <= i < |rows| && Claimable(rows[i], now) && i !in Sweepable(rows, from, limit, now)
      ensures var ids := Sweepable(rows, from, limit, now);
              |ids| == limit && forall k :: 0 <= k < |ids| ==> ids[k] < i
    {
      SweepTakesOldest(rows, from, limit, now, i);
    }
  }

  /** The table, with the four statements the source runs on it. */
  class MessageStore {
    var rows: seq<Row>

    constructor ()
      ensures rows == []
    {
      rows := [];
    }

    method StoreOutgoingPending(reply: Reply) returns (id: Option<RowId>)
      modifies this
      ensures id.None? <==> HasKey(old(rows), reply.key)
      ensures id.None? ==> rows == old(rows)
      ensures id.Some? ==> id.value == |old(rows)| && rows == old(rows) + [Row(reply, Pending, None, 0, None)]
      ensures rows == Stored(old(rows), reply)
    {
      if HasKey(rows, reply.key) {
        id := None;
      } else {
        id := Some(|rows|);
        rows := rows + [NewRow(reply)];
      }
    }

    method ClaimOutbound(id: RowId, now: Time, lease: Time) returns (won: bool)
      modifies this
      ensures won <==> id < |old(rows)| && Claimable(old(rows)[id], now)
      ensures won <==> id < |old(rows)| &&
                       var row := old(rows)[id];
                       || row.status == Pending
                       || (row.status == Sending && row.lockedUntil.Some? && row.lockedUntil.value < now)
      ensures !won ==> rows == old(rows)
      ensures won ==>
        var row := old(rows)[id];
        rows == old(rows)[id := Row(row.reply, Sending, Some(now + lease), row.attempts + 1, row.wamid)]
      ensures won ==> rows == old(rows)[id := Leased(old(rows)[id], now, lease)]
    {
      won := id < |rows| && Claimable(rows[id], now);
      if won {
        rows := rows[id := rows[id].(status := Sending, lockedUntil := Some(now + lease),
                                     attempts := rows[id].attempts + 1)];
      }
    }

    method MarkOutbound(id: RowId, status: Status, wamid: Option<string>)
      modifies this
      ensures id >= |old(rows)| ==> rows == old(rows)
      ensures id < |old(rows)| ==> rows == old(rows)[id := Marked(old(rows)[id], status, wamid)]
      ensures id < |old(rows)| ==>
        var row := old(rows)[id];
        rows == old(rows)[id := Row(row.reply, status, None, row.attempts, if wamid == None then row.wamid else wamid)]
    {
      if id < |rows| {
        var row := rows[id].(status := status, lockedUntil := None);
        if wamid.Some? {
          row := row.(wamid := wamid);
        }
        rows := rows[id := row];
      }
    }

    /** Exactly the claimable rows in creation order, cut off after `limit` of them. */
    method FetchSweepableOutbound(limit: nat, now: Time) returns (ids: seq<RowId>)
      ensures |ids| <= limit
      ensures forall k :: 0 <= k < |ids| ==> ids[k] < |rows| && Claimable(rows[ids[k]], now)
      ensures forall j, k :: 0 <= j < k < |ids| ==> ids[j] < ids[k]
      ensures forall i :: 0 <= i < |rows| && Claimable(rows[i], now) && i !in ids ==>
                |ids| == limit && forall k :: 0 <= k < |ids| ==> ids[k] < i
      ensures ids == Sweepable(rows, 0, limit, now)
    {
      SweepIsOldestClaimable(rows, 0, limit, now);
      ids := Sweepable(rows, 0, limit, now);
    }
  }
}
