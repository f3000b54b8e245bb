/**
 From webhook events to conversations.  The turns that any run of drives commits, with the pipeline's
 follow-ups between them, are the history that the conversation tables show.
 */
module EndToEnd {
  import opened Wrappers
  import opened Clock
  import opened Runs
  import C = Conversation
  import I = Intake
  import IP = IntakeProofs
  import W = Webhook

  /** What a turn meets besides its message: the geocode, the time, and the id a new draft would get. */
  datatype Circumstances = Circumstances(geocode: Option<C.Geocode>, now: Time, grievance: string)

  /** A step of the drives, or a follow-up of the pipeline. */
  datatype Joint = Driven(e: W.Event, c: Circumstances) | FollowedUp(contact: nat, about: string,
                                                                    status: C.PipelineStatus, now: Time, committed: bool)

  /** What the drives see of a joint run. */
  function Drives(es: seq<Joint>): seq<W.Event> {
    if es == [] then []
    else
      var j := es[|es| - 1];
      Drives(es[..|es| - 1]) + if j.Driven? then [j.e] else []
  }

  /** The event gives a message its turn. */
  predicate Handles(w: W.World, e: W.Event) {
    e.Handle? && e.who in w.drives && w.drives[e.who].stage.Handling? && w.drives[e.who].stage.rest != []
  }

  /** The transaction a joint event runs on the conversation tables; `said` is what a stored message says. */
  function Transactions(w: W.World, said: W.Message -> C.Inbound, j: Joint): seq<I.Event> {
    match j
    case FollowedUp(contact, about, status, now, committed) => [I.FollowUp(contact, about, status, now, committed)]
    case Driven(e, c) =>
      if !Handles(w, e) then []
      else [I.Turn(said(w.drives[e.who].stage.rest[0]), c.geocode, c.now, c.grievance, e.outcome != W.RolledBack)]
  }

  /** What the conversation tables see of a joint run. */
  function Trace(w: W.World, said: W.Message -> C.Inbound, es: seq<Joint>): seq<I.Event> {
    if es == [] then []
    else
      var before := es[..|es| - 1];
      Trace(w, said, before) + Transactions(Run(W.Step, w, Drives(before)), said, es[|es| - 1])
  }

  /** The ids of the messages that have a turn in a history, in order. */
  function TurnIds(history: seq<I.Event>): seq<string> {
    if history == [] then []
    else
      var e := history[|history| - 1];
      TurnIds(history[..|history| - 1]) + if e.Turn? then [e.m.id] else []
  }

  lemma {:induction false} SameIds(history: seq<I.Event>, id: string)
    ensures id in TurnIds(history) <==> id in I.Ids(history)
  {
    if history != [] {
      var before, e := history[..|history| - 1], history[|history| - 1];
      SameIds(before, id);
      IP.IdsSnoc(before, e);
      assert before + [e] == history;
    }
  }

  lemma TurnIdsSnoc(history: seq<I.Event>, e: I.Event)
    ensures TurnIds(history + [e]) == TurnIds(history) + if e.Turn? then [e.m.id] else []
  {
    assert (history + [e])[..|history|] == history;
  }

  lemma EffectiveConcat(es: seq<I.Event>, more: seq<I.Event>)
    requires |more| <= 1
    ensures I.Effective(es + more) == if more == [] then I.Effective(es) else I.Extended(I.Effective(es), more[0])
  {
    if more == [] {
      assert es + more == es;
    } else {
      RunSnoc(I.Extended, [], es, more[0]);
      assert more == [more[0]];
    }
  }

  /** The messages whose turn is committed, after one step of the drives. */
  lemma ConsumedAfter(w: W.World, e: W.Event)
    ensures var w' := W.Step(w, e);
      if Handles(w, e) && e.outcome != W.RolledBack && w.drives[e.who].stage.rest[0].id !in w.consumed
      then w'.consumed == w.consumed + [w.drives[e.who].stage.rest[0].id]
      else w'.consumed == w.consumed
  {
  }

  /** The turns of the history after one event. */
  lemma TurnIdsAfter(history: seq<I.Event>, e: I.Event)
    ensures TurnIds(I.Extended(history, e)) == TurnIds(history)
      + if e.Turn? && e.committed && e.m.id !in TurnIds(history) then [e.m.id] else []
  {
    if e.Turn? { SameIds(history, e.m.id); }
    TurnIdsSnoc(history, e);
    assert TurnIds(history) + [] == TurnIds(history);
  }

  /** One joint event adds to the committed turns what it adds to the effective history. */
  lemma StepAgrees(w: W.World, said: W.Message -> C.Inbound, j: Joint, history: seq<I.Event>)
    requires forall m :: said(m).id == m.id
    requires TurnIds(history) == w.consumed
    ensures var w' := if j.Driven? then W.Step(w, j.e) else w;
      var more := Transactions(w, said, j);
      |more| <= 1 && TurnIds(if more == [] then history else I.Extended(history, more[0])) == w'.consumed
  {
    var more := Transactions(w, said, j);
    if more != [] { TurnIdsAfter(history, more[0]); }
    if j.Driven? { ConsumedAfter(w, j.e); }
  }

  lemma DrivesSnoc(es: seq<Joint>, w: W.World)
    requires es != []
    ensures var before, j := es[..|es| - 1], es[|es| - 1];
      Run(W.Step, w, Drives(es))
      == if j.Driven? then W.Step(Run(W.Step, w, Drives(before)), j.e) else Run(W.Step, w, Drives(before))
  {
    var before, j := es[..|es| - 1], es[|es| - 1];
    if j.Driven? {
      RunSnoc(W.Step, w, Drives(before), j.e);
    } else {
      assert Drives(es) == Drives(before);
    }
  }

  /**
   In every joint run - redeliveries, overlapping drives, crashes, rollbacks, follow-ups - the messages whose
   turns the drives have committed are, in commit order, the turns of the effective history.
   */
  lemma {:induction false} CommittedTurnsAreTheHistory(w: W.World, said: W.Message -> C.Inbound, es: seq<Joint>)
    requires W.Initial(w) && forall m :: said(m).id == m.id
    ensures TurnIds(I.Effective(Trace(w, said, es))) == Run(W.Step, w, Drives(es)).consumed
    decreases |es|
  {
    if es != [] {
      var before, j := es[..|es| - 1], es[|es| - 1];
      CommittedTurnsAreTheHistory(w, said, before);
      var v := Run(W.Step, w, Drives(before));
      StepAgrees(v, said, j, I.Effective(Trace(w, said, before)));
      EffectiveConcat(Trace(w, said, before), Transactions(v, said, j));
      DrivesSnoc(es, w);
    }
  }

  /**
   End to end: what the tables say about a contact is the fold of its conversation over a history whose
   turns are exactly those the drives committed, each once.
   */
  lemma TablesShowCommittedTurns(w: W.World, db: I.Db, said: W.Message -> C.Inbound, es: seq<Joint>, contact: nat)
    requires W.Initial(w) && I.Initial(db) && forall m :: said(m).id == m.id
    requires Allowed(I.Step, I.Truthful, db, Trace(w, said, es))
    ensures var history, db', w' := I.Effective(Trace(w, said, es)), Run(I.Step, db, Trace(w, said, es)),
                                    Run(W.Step, w, Drives(es));
      && I.View(db', contact) == I.Spec(db.ttl, contact, history)
      && TurnIds(history) == w'.consumed
      && (forall id :: id in db'.consumed <==> id in w'.consumed)
      && (forall i, j :: 0 <= i < j < |w'.consumed| ==> w'.consumed[i] != w'.consumed[j])
  {
    CommittedTurnsAreTheHistory(w, said, es);
    IP.TablesRefineConversations(db, Trace(w, said, es), contact);
    W.TurnsAndDrivesAreBounded(w, Drives(es));
    forall id ensures id in Run(I.Step, db, Trace(w, said, es)).consumed <==> id in Run(W.Step, w, Drives(es)).consumed {
      SameIds(I.Effective(Trace(w, said, es)), id);
    }
  }
}
