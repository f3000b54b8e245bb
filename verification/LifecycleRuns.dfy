/** Runs from the empty table that reach what the lifecycle does not prevent. */
module LifecycleRuns {
  import opened Wrappers
  import opened Clock
  import opened Runs
  import opened Grievances
  import opened Lifecycle
  import opened DispatchRetries
  import opened Timeline
  import opened Attendance
  import T = Taxonomy

  const PLAIN := Grievance(Draft, None, Some("normal"), None, None, None, None, 1, None, None, None, 0, [])

  function Anywhere(): Settings {
    Settings(Geo((p, q) => true, (p, q) => 0.0), 0.0, 0)
  }

  function Empty(): World { World(Anywhere(), [], map[], [], map[]) }

  /** Nobody has dispatched anything yet or is reading. */
  function Only(gs: seq<Grievance>): World {
    World(Anywhere(), gs, map[], seq(|gs|, i => NOTHING), map[])
  }

  lemma OneCreated()
    ensures Run(Step, Empty(), [Create(PLAIN)]) == Only([PLAIN])
  {
    RunOne(Step, Empty(), Create(PLAIN));
    assert Created(PLAIN) == PLAIN;
  }

  function Awaiting(): Grievance { WithStatus(PLAIN, AwaitingConfirmation) }

  /** Filed; the pipeline runs and asks for confirmation. */
  function Filing(columns: Columns): seq<Event> {
    [Create(PLAIN), Load(9, 0), WriteChecked(9, columns, false)]
  }

  lemma FiledIsAwaiting(columns: Columns)
    ensures Run(Step, Empty(), Filing(columns)) == Only([Checked(PLAIN, columns, Draft, AwaitingConfirmation)])
  {
    RunThree(Step, Empty(), Create(PLAIN), Load(9, 0), WriteChecked(9, columns, false));
    OneCreated();
    RunOne(Step, Empty(), Create(PLAIN));
    var w := Step(Only([PLAIN]), Load(9, 0));
    assert w.readings == map[9 := Reading(0, Draft)] && w.readings - {9} == map[];
  }

  lemma OneAwaiting()
    ensures Run(Step, Empty(), Filing(NO_COLUMNS)) == Only([Awaiting()])
  {
    FiledIsAwaiting(NO_COLUMNS);
  }

  function Windowed(): Grievance {
    Confirmed(Awaiting(), 0).(status := PendingWindow, windowEnds := Some(0),
                              timeline := [AwaitingConfirmation, Registered, PendingWindow])
  }

  lemma WindowOpens()
    ensures Finalized([Awaiting()], 0, 0, Anywhere()) == [Windowed()]
  {
    OtherPriority();
    assert Decide([Awaiting()], 0, 0, Anywhere()) == OpenWindow;
    assert Awaiting().timeline == [AwaitingConfirmation];
    assert Awaiting().timeline + [Registered] + [PendingWindow] == [AwaitingConfirmation, Registered, PendingWindow];
    assert Finalized([Awaiting()], 0, 0, Anywhere())[0] == Windowed();
  }

  lemma OtherPriority()
    ensures Awaiting().priority != Some("priority")
  {
    assert "normal"[0] != "priority"[0];
  }

  /** A session loads the complaint while it awaits confirmation; the citizen confirms; the model answers. */
  lemma ConfirmedMeanwhile(write: Event)
    requires write.WriteReextraction? || write.WriteChecked?
    ensures var es := [Load(1, 0), Finalize(0, 0), write];
      Run(Step, Empty(), Filing(NO_COLUMNS) + es)
      == Step(World(Anywhere(), [Windowed()], map[], [NOTHING], map[1 := Reading(0, AwaitingConfirmation)]), write)
  {
    var es := [Load(1, 0), Finalize(0, 0), write];
    OneAwaiting();
    RunConcat(Step, Empty(), Filing(NO_COLUMNS), es);
    RunThree(Step, Only([Awaiting()]), Load(1, 0), Finalize(0, 0), write);
    WindowOpens();
    var w1 := Step(Only([Awaiting()]), Load(1, 0));
    assert w1.readings == map[1 := Reading(0, AwaitingConfirmation)] && w1.gs == [Awaiting()] && w1.logs == [NOTHING];
  }

  /** Written back as a re-extraction, the timeline ends in a status the row has left. */
  lemma AStaleReextraction() returns (w: World, es: seq<Event>)
    ensures Initial(w)
    ensures var w' := Run(Step, w, es);
      && |w'.gs| == 1 && w'.gs[0].status == PendingWindow
      && w'.gs[0].timeline == [AwaitingConfirmation, Registered, PendingWindow, AwaitingConfirmation]
      && !EndsInStatus(w'.gs[0])
  {
    w := Empty();
    es := Filing(NO_COLUMNS) + [Load(1, 0), Finalize(0, 0), WriteReextraction(1, NO_COLUMNS)];
    ConfirmedMeanwhile(WriteReextraction(1, NO_COLUMNS));
  }

  /** And so it does as the check of a photo that was replaced: the row keeps its status, the entry does not say so. */
  lemma AStalePhotoCheck() returns (w: World, es: seq<Event>)
    ensures Initial(w)
    ensures forall k :: 0 <= k < |es| ==> !es[k].WriteReextraction?
    ensures var w' := Run(Step, w, es);
      && |w'.gs| == 1 && w'.gs[0].status == PendingWindow
      && w'.gs[0].timeline == [AwaitingConfirmation, Registered, PendingWindow, AwaitingConfirmation]
      && !EndsInStatus(w'.gs[0])
  {
    w := Empty();
    es := Filing(NO_COLUMNS) + [Load(1, 0), Finalize(0, 0), WriteChecked(1, NO_COLUMNS, false)];
    ConfirmedMeanwhile(WriteChecked(1, NO_COLUMNS, false));
  }

  /** A complaint in its window, and its first dispatch under way. */
  function InFlight(who: nat, phase: Phase, log: Log): World {
    World(Anywhere(), [Windowed().(status := Status.Dispatching)], map[who := Flight(0, phase, 0)], [log], map[])
  }

  lemma WindowedAndLaunched()
    ensures Run(Step, Empty(), Filing(NO_COLUMNS) + [Finalize(0, 0), StartDispatch(1, 0)]) == InFlight(1, Calling, NOTHING)
  {
    var w0, mid := Only([Awaiting()]), [Finalize(0, 0), StartDispatch(1, 0)];
    OneAwaiting();
    RunConcat(Step, Empty(), Filing(NO_COLUMNS), mid);
    RunOne(Step, w0, Finalize(0, 0));
    RunSnoc(Step, w0, [Finalize(0, 0)], StartDispatch(1, 0));
    assert [Finalize(0, 0)] + [StartDispatch(1, 0)] == mid;
    WindowOpens();
    var w1 := Step(w0, Finalize(0, 0));
    assert w1.gs == [Windowed()] && w1.flights == map[] && w1.logs == [NOTHING];
  }

  /** A run after which three rows have the three statuses that their timelines never saw. */
  lemma StatusesOffTheRecord() returns (w: World, es: seq<Event>)
    ensures Initial(w)
    ensures var w' := Run(Step, w, es);
      && |w'.gs| == 3
      && w'.gs[0].status == Status.Dispatching && Status.Dispatching !in w'.gs[0].timeline
      && w'.gs[1].status == Draft && Draft !in w'.gs[1].timeline
      && w'.gs[2].status == Processing && Processing !in w'.gs[2].timeline
  {
    w := Empty();
    var start := Filing(NO_COLUMNS) + [Finalize(0, 0), StartDispatch(1, 0)];
    WindowedAndLaunched();
    RunSnoc(Step, w, start, Create(PLAIN));
    RunSnoc(Step, w, start + [Create(PLAIN)], Create(PLAIN.(status := Processing)));
    es := start + [Create(PLAIN)] + [Create(PLAIN.(status := Processing))];
  }

  // ----- runs in turn -----

  lemma FilingIsInTurn(columns: Columns)
    ensures Allowed(Step, InTurn, Empty(), Filing(columns))
  {
    var es := Filing(columns);
    AllowedOne(Step, InTurn, Empty(), Create(PLAIN));
    RunOne(Step, Empty(), Create(PLAIN));
    AllowedSnoc(Step, InTurn, Empty(), [Create(PLAIN)], Load(9, 0));
    assert [Create(PLAIN)] + [Load(9, 0)] == [Create(PLAIN), Load(9, 0)];
    RunSnoc(Step, Empty(), [Create(PLAIN)], Load(9, 0));
    AllowedSnoc(Step, InTurn, Empty(), [Create(PLAIN), Load(9, 0)], WriteChecked(9, columns, false));
    assert [Create(PLAIN), Load(9, 0)] + [WriteChecked(9, columns, false)] == es;
  }

  /** One more step of a run in turn. */
  lemma OneMoreInTurn(es: seq<Event>, w: World, e: Event) returns (all: seq<Event>)
    requires Allowed(Step, InTurn, Empty(), es) && Run(Step, Empty(), es) == w && InTurn(w, e)
    ensures Allowed(Step, InTurn, Empty(), all) && Run(Step, Empty(), all) == Step(w, e)
  {
    AllowedSnoc(Step, InTurn, Empty(), es, e);
    RunSnoc(Step, Empty(), es, e);
    all := es + [e];
  }

  /** A priority complaint, confirmed: registered, and found by nobody from then on, if the process dies here. */
  lemma AStrandedComplaint() returns (w: World, es: seq<Event>)
    ensures Initial(w) && Allowed(Step, InTurn, w, es)
    ensures var w' := Run(Step, w, es);
      |w'.gs| == 1 && w'.gs[0].status == Registered && !Attended(w'.gs[0]) && w'.flights == map[]
  {
    w := Empty();
    var columns := Columns(Some("c"), Some("priority"), Some(T.TicketAndEscalate), Some(false), Some(false));
    var g := Checked(PLAIN, columns, Draft, AwaitingConfirmation);
    FiledIsAwaiting(columns);
    FilingIsInTurn(columns);
    es := OneMoreInTurn(Filing(columns), Only([g]), Finalize(0, 0));
    assert Decide([g], 0, 0, Anywhere()) == DispatchNow;
  }

  function TwoInFlight(first: Phase, second: Phase, log: Log): World {
    InFlight(1, first, log).(flights := map[1 := Flight(0, first, 0), 2 := Flight(0, second, 0)])
  }

  lemma OneInFlight() returns (es: seq<Event>)
    ensures Allowed(Step, InTurn, Empty(), es) && Run(Step, Empty(), es) == InFlight(1, Calling, NOTHING)
  {
    var windowed := World(Anywhere(), [Windowed()], map[], [NOTHING], map[]);
    OneAwaiting();
    FilingIsInTurn(NO_COLUMNS);
    es := OneMoreInTurn(Filing(NO_COLUMNS), Only([Awaiting()]), Finalize(0, 0));
    WindowOpens();
    assert Step(Only([Awaiting()]), Finalize(0, 0)) == windowed;
    es := OneMoreInTurn(es, windowed, StartDispatch(1, 0));
    assert Step(windowed, StartDispatch(1, 0)) == InFlight(1, Calling, NOTHING);
  }

  /** A dispatch is under way when the sweep for interrupted dispatches takes the same row. */
  lemma TwoLaunched() returns (es: seq<Event>)
    ensures Allowed(Step, InTurn, Empty(), es)
    ensures Run(Step, Empty(), es) == TwoInFlight(Calling, Calling, NOTHING)
  {
    es := OneInFlight();
    es := OneMoreInTurn(es, InFlight(1, Calling, NOTHING), StartDispatch(2, 0));
    SecondLaunch();
  }

  lemma SecondLaunch()
    ensures Step(InFlight(1, Calling, NOTHING), StartDispatch(2, 0)) == TwoInFlight(Calling, Calling, NOTHING)
  {
  }

  function Called(ok: bool): Phase { if ok then Delivered else Failed }

  lemma FirstCall(ok: bool)
    ensures Step(TwoInFlight(Calling, Calling, NOTHING), CallDispatcher(1, ok))
         == TwoInFlight(Called(ok), Calling, AfterCall(NOTHING, ok))
  {
    var w := Step(TwoInFlight(Calling, Calling, NOTHING), CallDispatcher(1, ok));
    assert w.flights == map[1 := Flight(0, Called(ok), 0), 2 := Flight(0, Calling, 0)];
  }

  lemma SecondCall(ok: bool)
    ensures Step(TwoInFlight(Called(ok), Calling, AfterCall(NOTHING, ok)), CallDispatcher(2, ok))
         == TwoInFlight(Called(ok), Called(ok), AfterCall(AfterCall(NOTHING, ok), ok))
  {
    var w := Step(TwoInFlight(Called(ok), Calling, AfterCall(NOTHING, ok)), CallDispatcher(2, ok));
    assert w.flights == map[1 := Flight(0, Called(ok), 0), 2 := Flight(0, Called(ok), 0)];
  }

  lemma BothCalled(ok: bool) returns (es: seq<Event>)
    ensures Allowed(Step, InTurn, Empty(), es)
    ensures Run(Step, Empty(), es) == TwoInFlight(Called(ok), Called(ok), AfterCall(AfterCall(NOTHING, ok), ok))
  {
    es := TwoLaunched();
    es := OneMoreInTurn(es, TwoInFlight(Calling, Calling, NOTHING), CallDispatcher(1, ok));
    FirstCall(ok);
    es := OneMoreInTurn(es, TwoInFlight(Called(ok), Calling, AfterCall(NOTHING, ok)), CallDispatcher(2, ok));
    SecondCall(ok);
  }

  /** Without any crash the department gets the complaint twice. */
  lemma TwoDeliveries() returns (w: World, es: seq<Event>)
    ensures Initial(w) && Allowed(Step, InTurn, w, es)
    ensures var w' := Run(Step, w, es);
      && |w'.gs| == |w'.logs| == 1 && w'.flights == map[] && w'.gs[0].status == Submitted
      && w'.logs[0].deliveries == w'.logs[0].recordedDeliveries == 2 && w'.logs[0].lostDeliveries == 0
  {
    w := Empty();
    es := BothCalled(true);
    var w0 := TwoInFlight(Delivered, Delivered, NOTHING.(deliveries := 2));
    es := OneMoreInTurn(es, w0, EndDispatch(1));
    es := OneMoreInTurn(es, Step(w0, EndDispatch(1)), EndDispatch(2));
  }

  /** And two refusals, both recorded, count as one attempt. */
  lemma TwoFailuresCountOnce() returns (w: World, es: seq<Event>)
    ensures Initial(w) && Allowed(Step, InTurn, w, es)
    ensures var w' := Run(Step, w, es);
      && |w'.gs| == |w'.logs| == 1 && w'.flights == map[] && w'.gs[0].attempts == 1
      && w'.logs[0].failures == w'.logs[0].recordedFailures == 2
  {
    w := Empty();
    es := BothCalled(false);
    var w0 := TwoInFlight(Failed, Failed, NOTHING.(failures := 2));
    es := OneMoreInTurn(es, w0, EndDispatch(1));
    es := OneMoreInTurn(es, Step(w0, EndDispatch(1)), EndDispatch(2));
  }
}
