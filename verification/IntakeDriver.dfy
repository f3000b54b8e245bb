/** _handle_inbound and the pipeline follow-up, statement by statement, over the shared tables. */
module IntakeDriver {
  import opened Wrappers
  import opened Clock
  import opened Outbox
  import opened Intake
  import opened IntakeProofs
  import opened TurnRecords
  import C = Conversation

  /** The rows that were added, in order. */
  predicate Added(pending: seq<RowId>, before: nat, after: nat) {
    |pending| == after - before && forall k :: 0 <= k < |pending| ==> pending[k] == before + k
  }

  class Tables {
    var ttl: Time
    var serviceWindow: Time
    var convs: seq<Conv>
    var grievances: seq<Grievance>
    var consumed: map<string, Consumption>
    const store: MessageStore

    function Now(): Db
      reads this, store
    {
      Db(ttl, serviceWindow, convs, grievances, consumed, store.rows)
    }

    constructor (store: MessageStore, ttl: Time, serviceWindow: Time)
      requires store.rows == []
      ensures this.store == store && Initial(Now())
    {
      this.store, this.ttl, this.serviceWindow := store, ttl, serviceWindow;
      convs, grievances, consumed := [], [], map[];
    }

    /** The idempotency gate: true for the first caller with this message id. */
    method ClaimInbound(id: string) returns (won: bool)
      modifies this`consumed
      ensures won <==> id !in old(consumed)
      ensures consumed == if won then old(consumed)[id := Consumption(None, None, None)] else old(consumed)
    {
      won := id !in consumed;
      if won {
        consumed := consumed[id := Consumption(None, None, None)];
      }
    }

    method LockContactAndGetConversation(contact: nat, now: Time) returns (conversation: Option<nat>)
      modifies this`convs
      ensures (convs, conversation) == LockedConversation(old(convs), contact, now)
    {
      conversation := ActiveAt(convs, contact);
      if conversation.Some? && convs[conversation.value].expiresAt < now {
        convs := convs[conversation.value := convs[conversation.value].(active := false)];
        conversation := None;
      }
    }

    method UpsertConversationState(conversation: Option<nat>, m: C.Inbound, r: C.Result, now: Time)
      returns (k: nat)
      requires conversation.Some? ==> conversation.value < |convs|
      modifies this`convs
      ensures (convs, k) == Upserted(old(Now()), conversation, m, r, now)
      ensures k < |convs|
    {
      if conversation.None? {
        k := |convs|;
        convs := convs + [Conv(m.contact, r.state, r.context, 0, true, m.receivedAt,
                               m.receivedAt + serviceWindow, now + ttl)];
      } else {
        k := conversation.value;
        var c := convs[k].(state := r.state, context := r.context);
        c := c.(version := c.version + 1, lastMessageAt := m.receivedAt);
        c := c.(windowEnds := m.receivedAt + serviceWindow, expiresAt := now + ttl);
        convs := convs[k := c];
      }
    }

    method CreateDraftGrievance(contact: nat, conversation: nat, context: C.Context, newId: string)
      returns (id: string)
      modifies this`grievances
      ensures (grievances, id) == Drafted(old(grievances), contact, conversation, context, newId)
    {
      var existing := NamedBy(grievances, conversation);
      if existing.Some? {
        id := grievances[existing.value].id;
      } else {
        grievances := grievances + [Grievance(newId, Some(conversation), contact, context.location,
                                              context.issue.messages, context.photo.mediaId)];
        id := newId;
      }
    }

    method StoreIntents(m: C.Inbound, conversation: nat, intents: seq<C.Intent>) returns (pending: seq<RowId>)
      modifies store
      ensures store.rows == StoredIntents(old(store.rows), m, conversation, intents)
      ensures Added(pending, |old(store.rows)|, |store.rows|)
    {
      pending := [];
      for n := 0 to |intents|
        invariant store.rows == StoredIntents(old(store.rows), m, conversation, intents[..n])
        invariant Added(pending, |old(store.rows)|, |store.rows|)
      {
        assert intents[..n + 1][..n] == intents[..n];
        var row := store.StoreOutgoingPending(TurnReply(m, conversation, intents[n]));
        if row.Some? {
          pending := pending + [row.value];
        }
      }
      assert intents[..|intents|] == intents;
    }

    method StoreStandalone(m: C.Inbound, key: Key) returns (pending: seq<RowId>)
      modifies store
      ensures store.rows == Stored(old(store.rows), Standalone(m, key))
      ensures Added(pending, |old(store.rows)|, |store.rows|)
    {
      var row := store.StoreOutgoingPending(Standalone(m, key));
      pending := if row.Some? then [row.value] else [];
    }

    /** The part of the turn that runs the state machine; `raised` when it ends in an exception. */
    method RunMachine(conversation: Option<nat>, e: Event)
      returns (pending: seq<RowId>, action: C.Action, raised: bool)
      requires e.Turn? && (conversation.Some? ==> conversation.value < |convs|)
      modifies this, store
      ensures raised <==> MachineTurn(old(Now()), conversation, e).None?
      ensures !raised ==> Now() == MachineTurn(old(Now()), conversation, e).value
      ensures action == Answer(old(Now()), conversation, e).action
      ensures !raised ==> Added(pending, |old(store.rows)|, |store.rows|)
      ensures ttl == old(ttl) && serviceWindow == old(serviceWindow)
    {
      var m := e.m;
      pending, raised := [], false;
      var before := if conversation.Some? then Some(convs[conversation.value].state) else None;
      var context := if conversation.Some? then Some(convs[conversation.value].context) else None;
      var r := C.Advance(before, context, m, e.geocode, e.now);
      action := r.action;
      var k := UpsertConversationState(conversation, m, r, e.now);
      if r.action == C.StartPipeline {
        var id := CreateDraftGrievance(m.contact, k, r.context, e.grievance);
        convs := convs[k := convs[k].(context := r.context.(draft := r.context.draft.(grievance := Some(id))))];
      } else if r.action == C.RecheckPhoto {
        var row := WithId(grievances, r.context.draft.grievance);
        if row.None? {
          raised := true;
          return;
        }
        grievances := grievances[row.value := grievances[row.value].(photo := r.context.photo.mediaId)];
      }
      consumed := consumed[m.id := Consumption(Some(k), before, Some(r.state))];
      pending := StoreIntents(m, k, r.intents);
      if r.close {
        convs := convs[k := convs[k].(active := false)];
      }
    }

    /**
     The whole transaction for one inbound message.  `committed` false stands for any failure before
     the commit returns; everything written is then undone.
     */
    method HandleInbound(e: Event) returns (pending: seq<RowId>, raised: bool)
      requires e.Turn?
      modifies this, store
      ensures Now() == Step(old(Now()), e)
      ensures raised <==> !(e.committed && TurnTransaction(old(Now()), e).Some?)
      ensures Added(pending, |old(store.rows)|, |store.rows|)
      ensures DbOk(old(Now())) ==>
        forall i :: Converses(old(Now()), e, i) ==> TurnWritten(old(Now()), Now(), e, i)
    {
      ghost var before := Now();
      pending, raised := RunTransaction(e);
      if DbOk(before) { TurnsAreWritten(before, e); }
    }

    /** Its statements, undone when it raises. */
    method RunTransaction(e: Event) returns (pending: seq<RowId>, raised: bool)
      requires e.Turn?
      modifies this, store
      ensures Now() == Step(old(Now()), e)
      ensures raised <==> !(e.committed && TurnTransaction(old(Now()), e).Some?)
      ensures Added(pending, |old(store.rows)|, |store.rows|)
    {
      var convs0, grievances0, consumed0, rows0 := convs, grievances, consumed, store.rows;
      var m := e.m;
      raised := false;
      pending := [];
      var won := ClaimInbound(m.id);
      if won {
        var key := InterceptKey(m);
        if key.Some? {
          pending := StoreStandalone(m, key.value);
        } else {
          var conversation := LockContactAndGetConversation(m.contact, e.now);
          if conversation.None? && Truthy(m.text) && m.isStatusQuery {
            pending := StoreStandalone(m, StatusKey(m.id));
          } else {
            var action;
            pending, action, raised := RunMachine(conversation, e);
          }
        }
      }
      raised := raised || !e.committed;
      if raised {
        convs, grievances, consumed, store.rows := convs0, grievances0, consumed0, rows0;
        pending := [];
      }
    }

    /** The pipeline's answer: it writes its state onto whatever conversation is active. */
    method SendPipelineFollowUp(e: Event) returns (row: Option<RowId>)
      requires e.FollowUp?
      modifies this, store
      ensures Now() == Step(old(Now()), e)
      ensures row.None? ==> store.rows == old(store.rows)
      ensures row.Some? ==>
        && row.value == |old(store.rows)|
        && LandsOn(old(Now()), e).Some?
        && store.rows == old(store.rows) + [NewRow(FollowUpReply(e, LandsOn(old(Now()), e).value))]
    {
      var convs0, rows0 := convs, store.rows;
      row := None;
      var conversation := LockContactAndGetConversation(e.contact, e.now);
      if conversation.None? {
        convs := convs0;   // returns without a commit
        return;
      }
      if e.status == C.PipelineReady && WithId(grievances, Some(e.about)).None? {
        return;            // raises before anything was written
      }
      var k := conversation.value;
      convs := convs[k := convs[k].(state := C.FollowUpState(e.status))];
      row := store.StoreOutgoingPending(FollowUpReply(e, k));
      if !e.committed {
        convs, store.rows := convs0, rows0;
        row := None;
      }
    }
  }
}
