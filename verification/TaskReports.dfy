/** What workers' reports leave behind: usage events, saved results and error codes. */
module TaskReports {
  import opened Prelude
  import opened Money
  import opened Billing
  import opened Dispatch
  import opened TaskMachine
  import opened TaskRuns

  // ------------------------------------------------------------------ reports

  /** The task is offered to its candidates in this step. */
  ghost predicate IsOffered(w: World, e: Event, id: nat) {
    && e.Try? && e.id == id && id < |w.tasks| && w.tasks[id].status == Queued
    && PoolOf(w.nodes, w.tasks[id].wish) != Waiting && !TimesOut(w, w.tasks[id])
  }

  /** The task's worker is asked in this step, by a poll or by recovery, and answers. */
  ghost predicate IsAnswered(w: World, e: Event, id: nat) {
    && (e.Poll? || e.Recover?) && e.id == id && id < |w.tasks| && e.answer.Answered?
    && w.tasks[id].status == Running && w.tasks[id].workerTask.Some? && NodeKnown(w, w.tasks[id])
  }

  /** What a worker reports of the task in this step: asked for it, or on accepting it. */
  ghost function ReportOf(w: World, e: Event, id: nat): Option<WorkerStatus> {
    if IsAnswered(w, e, id) then Some(e.answer.status)
    else if IsOffered(w, e, id) then
      match OfferingOf(w, w.tasks[id], e.replies, e.tooLong).outcome
      case AcceptedBy(_, _, status) => Some(status)
      case _ => None
    else None
  }

  ghost predicate ReportsSuccess(w: World, e: Event, id: nat) {
    ReportOf(w, e, id).Some? && ReportOf(w, e, id).value.WorkerSuccess?
  }

  // ------------------------------------------------------------------ what success costs and saves

  /** One more usage event, or one more saved result, of a task. */
  ghost predicate Booked(w: World, w': World, id: nat, charged: bool, saved: bool) {
    && EventsOf(w'.ledger.events, id) == EventsOf(w.ledger.events, id) + (if charged then 1 else 0)
    && w'.completions[id] == w.completions[id] + (if saved then 1 else 0)
  }

  lemma CompletionBooks(w: World, id: nat, audioSec: real, chars: nat, i: nat)
    requires id < |w.tasks|
    ensures Booked(w, Completed(w, id, audioSec, chars), i,
                   i == id && Chargeable(w, w.tasks[id]), i == id && !w.tasks[id].skip)
  {
    var t := w.tasks[id];
    var event := UsageEvent(t.org, id, Amount(t, audioSec, chars), t.snap.unlimited);
    assert (w.ledger.events + [event])[..|w.ledger.events|] == w.ledger.events;
  }

  lemma ReportBooks(w: World, id: nat, status: WorkerStatus, i: nat)
    requires id < |w.tasks|
    ensures var success := i == id && status.WorkerSuccess?;
            Booked(w, Reported(w, id, status), i, success && Chargeable(w, w.tasks[id]), success && !w.tasks[id].skip)
  {
    if status.WorkerSuccess? {
      CompletionBooks(w, id, status.audioSec, status.chars, i);
    }
  }

  lemma OfferedBooks(w: World, id: nat, o: Offering, i: nat)
    requires id < |w.tasks|
    ensures var success := i == id && o.outcome.AcceptedBy? && o.outcome.status.WorkerSuccess?;
            Booked(w, Offered(w, id, o), i, success && Chargeable(w, w.tasks[id]), success && !w.tasks[id].skip)
  {
    if o.outcome.AcceptedBy? {
      ReportBooks(w.(tasks := w.tasks[id := Placed(w.tasks[id], o)]), id, o.outcome.status, i);
    }
  }

  /** A code that no request and no clock records: it comes from workers and from preparing a post. */
  predicate OfWorkers(code: ErrorCode) {
    code !in WITHDRAWALS + {Canceled, SourceDeleted, DispatchTimeout}
  }

  /** No usage event, no saved result, and no error code of the workers' comes of the step. */
  ghost predicate Quiet(w: World, w': World) {
    && w'.ledger.events == w.ledger.events && w'.completions == w.completions && |w'.tasks| >= |w.tasks|
    && forall i :: 0 <= i < |w.tasks| ==>
         var error := w'.tasks[i].error; error == w.tasks[i].error || error.None? || !OfWorkers(error.value)
  }

  lemma RowIsQuiet(w: World, id: nat, t': Task)
    requires id < |w.tasks| && t'.error == w.tasks[id].error
    ensures Quiet(w, w.(tasks := w.tasks[id := t']))
  {
  }

  lemma PollIs(w: World, e: Event)
    requires e.Poll? && e.id < |w.tasks|
    ensures if IsAnswered(w, e, e.id) && !e.answer.status.WorkerUnclear?
            then Step(w, e) == Reported(w, e.id, e.answer.status) else Quiet(w, Step(w, e))
  {
    RowIsQuiet(w, e.id, Requeued(w.tasks[e.id]));
    RowIsQuiet(w, e.id, Lost(w.tasks[e.id]));
  }

  lemma RecoverIs(w: World, e: Event)
    requires e.Recover? && e.id < |w.tasks|
    ensures if IsAnswered(w, e, e.id) && !e.answer.status.WorkerUnclear?
            then Step(w, e) == Reported(w, e.id, e.answer.status) else Quiet(w, Step(w, e))
  {
    RowIsQuiet(w, e.id, Requeued(w.tasks[e.id]));
    RowIsQuiet(w, e.id, Lost(w.tasks[e.id]));
  }

  /** A poll and recovery take down the report they get, and are quiet without one. */
  lemma AskIs(w: World, e: Event)
    requires (e.Poll? || e.Recover?) && e.id < |w.tasks|
    ensures if IsAnswered(w, e, e.id) && !e.answer.status.WorkerUnclear?
            then Step(w, e) == Reported(w, e.id, e.answer.status) else Quiet(w, Step(w, e))
  {
    if e.Poll? {
      PollIs(w, e);
    } else {
      RecoverIs(w, e);
    }
  }

  lemma TryIs(w: World, e: Event)
    requires e.Try? && e.id < |w.tasks|
    ensures if IsOffered(w, e, e.id)
            then Step(w, e) == Offered(w, e.id, OfferingOf(w, w.tasks[e.id], e.replies, e.tooLong))
            else Quiet(w, Step(w, e))
  {
  }

  lemma DeletingIsQuiet(w: World, e: Event)
    requires e.Delete? || e.Withdraw?
    ensures Quiet(w, Step(w, e))
  {
  }

  lemma RequestsAreQuiet(w: World, e: Event)
    requires !e.Poll? && !e.Recover? && !e.Try? && !e.Delete? && !e.Withdraw?
    ensures Quiet(w, Step(w, e))
  {
  }

  /** Every other step is quiet. */
  lemma OthersAreQuiet(w: World, e: Event)
    requires (e.Poll? || e.Recover? || e.Try?) ==> e.id >= |w.tasks|
    ensures Quiet(w, Step(w, e))
  {
    if e.Delete? || e.Withdraw? {
      DeletingIsQuiet(w, e);
    } else if !e.Poll? && !e.Recover? && !e.Try? {
      RequestsAreQuiet(w, e);
    }
  }

  /** Nothing but a worker's report of success is charged or saved. */
  lemma StepBooks(w: World, e: Event, id: nat)
    ensures var success := ReportsSuccess(w, e, id);
            Booked(w, Step(w, e), id, success && Chargeable(w, w.tasks[id]), success && !w.tasks[id].skip)
  {
    if !(e.Poll? || e.Recover? || e.Try?) || e.id >= |w.tasks| {
      OthersAreQuiet(w, e);
      QuietBooksNothing(w, Step(w, e), id);
    } else if e.Try? {
      TryBooks(w, e, id);
    } else {
      AskBooks(w, e, id);
    }
  }

  lemma QuietBooksNothing(w: World, w': World, id: nat)
    requires Quiet(w, w')
    ensures Booked(w, w', id, false, false)
  {
  }

  /** Success is reported on an offering just by the node that accepts it. */
  lemma TryReports(w: World, e: Event, id: nat)
    requires e.Try? && e.id < |w.tasks|
    ensures ReportsSuccess(w, e, id) <==>
              && id == e.id && IsOffered(w, e, e.id)
              && var o := OfferingOf(w, w.tasks[e.id], e.replies, e.tooLong);
                 o.outcome.AcceptedBy? && o.outcome.status.WorkerSuccess?
  {
  }

  lemma AskReports(w: World, e: Event, id: nat)
    requires (e.Poll? || e.Recover?) && e.id < |w.tasks|
    ensures ReportsSuccess(w, e, id) <==> id == e.id && IsAnswered(w, e, e.id) && e.answer.status.WorkerSuccess?
  {
  }

  lemma TryBooks(w: World, e: Event, id: nat)
    requires e.Try? && e.id < |w.tasks|
    ensures var success := ReportsSuccess(w, e, id);
            Booked(w, Step(w, e), id, success && Chargeable(w, w.tasks[id]), success && !w.tasks[id].skip)
  {
    TryIs(w, e);
    TryReports(w, e, id);
    if IsOffered(w, e, e.id) {
      OfferedBooks(w, e.id, OfferingOf(w, w.tasks[e.id], e.replies, e.tooLong), id);
    } else {
      QuietBooksNothing(w, Step(w, e), id);
    }
  }

  lemma AskBooks(w: World, e: Event, id: nat)
    requires (e.Poll? || e.Recover?) && e.id < |w.tasks|
    ensures var success := ReportsSuccess(w, e, id);
            Booked(w, Step(w, e), id, success && Chargeable(w, w.tasks[id]), success && !w.tasks[id].skip)
  {
    AskIs(w, e);
    AskReports(w, e, id);
    if IsAnswered(w, e, e.id) && !e.answer.status.WorkerUnclear? {
      ReportBooks(w, e.id, e.answer.status, id);
    } else {
      QuietBooksNothing(w, Step(w, e), id);
    }
  }

  /** In every run a step charges a task just when a worker reports its success and it is not yet billed. */
  lemma ChargedIff(w: World, events: seq<Event>, e: Event, id: nat)
    ensures var s := Run(w, events);
            EventsOf(Step(s, e).ledger.events, id) > EventsOf(s.ledger.events, id)
            <==> ReportsSuccess(s, e, id) && Chargeable(s, s.tasks[id])
  {
    StepBooks(Run(w, events), e, id);
  }

  /**
    A charge without a saved result: in every run a step adds a usage event for a task whose result it
    does not save if and only if a worker reports success of a task that may not save and is not billed.
   */
  lemma ChargedUnsavedIff(w: World, events: seq<Event>, e: Event, id: nat)
    ensures var s, s' := Run(w, events), Step(Run(w, events), e);
            (EventsOf(s'.ledger.events, id) > EventsOf(s.ledger.events, id) && s'.completions[id] == s.completions[id])
            <==> ReportsSuccess(s, e, id) && Chargeable(s, s.tasks[id]) && s.tasks[id].skip
  {
    StepBooks(Run(w, events), e, id);
  }

  // ------------------------------------------------------------------ such a charge happens

  /** A hub with nothing in it. */
  function NewHub(): World {
    World([], {}, {}, {}, 0, {}, [], Ledger(map[], []), 0, 0, map[], [], multiset{}, [])
  }

  ghost predicate Reached(w: World) {
    exists events: seq<Event> :: PlausibleRun(NewHub(), events) && Run(NewHub(), events) == w
  }

  lemma Onward(w: World, e: Event)
    requires Reached(w) && Plausible(w, e)
    ensures Reached(Step(w, e))
  {
    var events: seq<Event> :| PlausibleRun(NewHub(), events) && Run(NewHub(), events) == w;
    assert (events + [e])[..|events|] == events;
    assert PlausibleRun(NewHub(), events + [e]) && Run(NewHub(), events + [e]) == Step(w, e);
  }

  function OnlyNode(): Node {
    Node(0, true, Transcribe, 1, [], [], None, 200, 0, map["m" := "loaded"])
  }

  function OnlyTask(): Task {
    NewTask(Wish(Transcribe, "m", "", ""), 0, 0, Snapshot(false, 1.0, 0.0), [], 0)
  }

  /** The node takes the task and is at work on it. */
  function Takes(id: nat): Reply {
    Taken(Some("job"), WorkerBusy)
  }

  function Founded(): World {
    NewHub().(ledger := Ledger(map[0 := 1.0], []), funded := map[0 := 1.0])
  }

  function Equipped(): World {
    Founded().(audios := {0}, nextDoc := 1, nodes := [OnlyNode()])
  }

  /** One organization, one node, one audio and one transcription in the queue. */
  function Stocked(): World {
    Equipped().(tasks := [OnlyTask()])
  }

  lemma FoundedIsReached()
    ensures Reached(Founded())
  {
    var none: seq<Event> := [];
    assert PlausibleRun(NewHub(), none) && Run(NewHub(), none) == NewHub();
    MoneyOfThousandths(1000);
    Onward(NewHub(), NewOrg(0, 1.0));
  }

  lemma EquippedIsReached()
    ensures Reached(Equipped())
  {
    FoundedIsReached();
    Onward(Founded(), AddAudio);
    var w := Founded().(audios := {0}, nextDoc := 1);
    assert Step(Founded(), AddAudio) == w;
    Onward(w, SetNodes([OnlyNode()]));
  }

  lemma StockedIsReached()
    ensures Reached(Stocked())
  {
    EquippedIsReached();
    Onward(Equipped(), Create(OnlyTask().wish, 0, 0, OnlyTask().snap, []));
  }

  /** The worker has the task, and its audio is gone. */
  function Orphan(): Task {
    OnlyTask().(status := Running, worker := Some(0), workerTask := Some("job"), source := None,
                skip := true, skipReason := Some(SourceDeleted))
  }

  lemma OnlyCandidate()
    ensures PoolOf([OnlyNode()], OnlyTask().wish) == Ready
    ensures Candidates([OnlyNode()], OnlyTask().wish) == [OnlyNode()]
  {
    var wish, n := OnlyTask().wish, OnlyNode();
    assert n in [n] && Offers(n, wish) && Serving(n, wish);
    assert [n][..0] == [];
    assert Candidates([n], wish) == [] + [n];
  }

  lemma OnlyPost(rows: seq<Assignment>)
    ensures Posts(rows, [OnlyNode()], Takes) == [OnlyNode()]
  {
    var n := OnlyNode();
    assert PickNode(rows, [n]) == n;
    assert Posts(rows, [n], Takes) == [n] + [];
  }

  lemma OnlyNodeIsOffered(w: World)
    requires w == Stocked()
    ensures PoolOf(w.nodes, OnlyTask().wish) == Ready
    ensures OfferingOf(w, OnlyTask(), Takes, false)
            == Offering([OnlyNode()], false, AcceptedBy(OnlyNode(), Some("job"), WorkerBusy))
  {
    OnlyCandidate();
    OnlyPost(Rows(w.tasks));
  }

  function Dispatched(): World {
    Stocked().(tasks := [OnlyTask().(status := Running, worker := Some(0), workerTask := Some("job"))])
  }

  lemma TakenIsDispatched()
    ensures Step(Stocked(), Try(0, Takes, false)) == Dispatched()
  {
    OnlyNodeIsOffered(Stocked());
    TryIs(Stocked(), Try(0, Takes, false));
  }

  lemma DispatchedIsReached()
    ensures Reached(Dispatched())
  {
    StockedIsReached();
    TakenIsDispatched();
    Onward(Stocked(), Try(0, Takes, false));
  }

  function Orphaning(): World {
    Stocked().(tasks := [Orphan()], audios := {})
  }

  lemma DeletingOrphans()
    ensures Deleted(Dispatched(), Transcribe, 0) == Orphaning()
  {
    assert OrphanedAll(StoppedFor(Dispatched().tasks, Transcribe, 0), Transcribe, 0) == [Orphan()];
  }

  lemma OrphanIsReached()
    ensures Reached(Orphaning())
  {
    DispatchedIsReached();
    DeletingOrphans();
    Onward(Dispatched(), Delete(Transcribe, 0));
  }

  lemma OrphanIsCharged(w: World, e: Event)
    requires w == Orphaning() && e == Poll(0, Answered(WorkerSuccess(1.0, 0)))
    ensures var w' := Step(w, e);
            && |w'.tasks| == 1 && w'.tasks[0].error == Some(SourceDeleted)
            && w'.completions[0] == 0 && EventsOf(w'.ledger.events, 0) == 1
  {
    assert OnlyNode() in w.nodes && NodeKnown(w, Orphan());
    CompletionBooks(w, 0, 1.0, 0, 0);
  }

  /** Dispatched, its audio deleted, its worker done: the task fails and is charged. */
  lemma ChargedUnsavedHappens()
    ensures exists events ::
              && PlausibleRun(NewHub(), events) && |Run(NewHub(), events).tasks| == 1
              && Run(NewHub(), events).tasks[0].error == Some(SourceDeleted)
              && Run(NewHub(), events).completions[0] == 0
              && EventsOf(Run(NewHub(), events).ledger.events, 0) == 1
  {
    OrphanIsReached();
    var w, e := Orphaning(), Poll(0, Answered(WorkerSuccess(1.0, 0)));
    OrphanIsCharged(w, e);
    Onward(w, e);
  }

  // ------------------------------------------------------------------ which codes are recorded

  /** The task newly fails with the code. */
  ghost predicate Records(w: World, w': World, id: nat, code: ErrorCode)
    requires id < |w.tasks|
  {
    id < |w'.tasks| && w'.tasks[id].error == Some(code) && w.tasks[id].error != Some(code)
  }

  lemma ReportRecords(w: World, id: nat, status: WorkerStatus, i: nat, code: ErrorCode)
    requires id < |w.tasks| && i < |w.tasks| && RowSound(w, w.tasks[id]) && OfWorkers(code)
    requires w.tasks[i].error != Some(code)
    ensures Records(w, Reported(w, id, status), i, code)
            <==> i == id && status.WorkerError? && MapWorkerError(status.code) == code
  {
  }

  /** The row is changed and nothing else. */
  lemma RowRecords(w: World, id: nat, t': Task, i: nat, code: ErrorCode)
    requires id < |w.tasks| && i < |w.tasks| && w.tasks[i].error != Some(code)
    ensures Records(w, w.(tasks := w.tasks[id := t']), i, code) <==> i == id && t'.error == Some(code)
  {
  }

  lemma OfferedRecords(w: World, id: nat, o: Offering, i: nat, code: ErrorCode)
    requires id < |w.tasks| && i < |w.tasks| && RowSound(w, w.tasks[id]) && w.tasks[id].status == Queued
    requires OfWorkers(code) && w.tasks[i].error != Some(code) && (o.outcome.AcceptedBy? ==> HasSource(w, w.tasks[id]))
    ensures Records(w, Offered(w, id, o), i, code) <==> i == id && EndsIn(o, code)
  {
    var placed := w.(tasks := w.tasks[id := Placed(w.tasks[id], o)]);
    if o.outcome.AcceptedBy? {
      PlacedIsSound(w, w.tasks[id], o);
      ReportRecords(placed, id, o.outcome.status, i, code);
    } else {
      RowRecords(w, id, Placed(w.tasks[id], o), i, code);
    }
  }

  /** The offering fails with the code, or the accepting worker reports it at once. */
  predicate EndsIn(o: Offering, code: ErrorCode) {
    || o.outcome == Failed(code)
    || (o.outcome.AcceptedBy? && o.outcome.status.WorkerError? && MapWorkerError(o.outcome.status.code) == code)
  }

  /** A worker reports the error in this step. */
  ghost predicate ReportsError(w: World, e: Event, id: nat, code: ErrorCode) {
    && ReportOf(w, e, id).Some? && ReportOf(w, e, id).value.WorkerError?
    && MapWorkerError(ReportOf(w, e, id).value.code) == code
  }

  lemma QuietRecordsNone(w: World, w': World, i: nat, code: ErrorCode)
    requires Quiet(w, w') && i < |w.tasks| && OfWorkers(code) && w.tasks[i].error != Some(code)
    ensures !Records(w, w', i, code)
  {
  }

  lemma OnlyAskedReports(w: World, e: Event, id: nat, code: ErrorCode)
    requires (e.Poll? || e.Recover? || e.Try?) ==> e.id >= |w.tasks| || e.id != id
    ensures !ReportsError(w, e, id, code) && !IsOffered(w, e, id)
  {
  }

  lemma AskRecords(w: World, e: Event, i: nat, code: ErrorCode)
    requires Sound(w) && (e.Poll? || e.Recover?) && e.id < |w.tasks| && i < |w.tasks| && OfWorkers(code)
    requires w.tasks[i].error != Some(code)
    ensures Records(w, Step(w, e), i, code) <==> ReportsError(w, e, i, code)
  {
    AskIs(w, e);
    AskReportsError(w, e, i, code);
    if IsAnswered(w, e, e.id) && !e.answer.status.WorkerUnclear? {
      assert RowSound(w, w.tasks[e.id]);
      ReportRecords(w, e.id, e.answer.status, i, code);
    } else {
      QuietRecordsNone(w, Step(w, e), i, code);
    }
  }

  lemma AskReportsError(w: World, e: Event, i: nat, code: ErrorCode)
    requires (e.Poll? || e.Recover?) && e.id < |w.tasks|
    ensures ReportsError(w, e, i, code) <==>
              && i == e.id && IsAnswered(w, e, e.id)
              && e.answer.status.WorkerError? && MapWorkerError(e.answer.status.code) == code
  {
  }

  lemma TryRecords(w: World, e: Event, i: nat, code: ErrorCode)
    requires Sound(w) && e.Try? && e.id < |w.tasks| && i < |w.tasks| && OfWorkers(code)
    requires w.tasks[i].error != Some(code)
    ensures Records(w, Step(w, e), i, code)
            <==> IsOffered(w, e, i) && EndsIn(OfferingOf(w, w.tasks[i], e.replies, e.tooLong), code)
  {
    TryIs(w, e);
    if IsOffered(w, e, e.id) {
      var t := w.tasks[e.id];
      assert RowSound(w, t);
      AcceptedHasSource(w, t, e.replies, e.tooLong);
      OfferedRecords(w, e.id, OfferingOf(w, t, e.replies, e.tooLong), i, code);
    } else {
      QuietRecordsNone(w, Step(w, e), i, code);
    }
  }

  lemma EndsInMeans(w: World, e: Event, id: nat, code: ErrorCode)
    requires e.Try?
    ensures (IsOffered(w, e, id) && EndsIn(OfferingOf(w, w.tasks[id], e.replies, e.tooLong), code)) <==>
              || ReportsError(w, e, id, code)
              || (IsOffered(w, e, id) && OfferingOf(w, w.tasks[id], e.replies, e.tooLong).outcome == Failed(code))
  {
  }

  /** A worker's code is recorded just when a worker reports it, or when an offering ends in it. */
  lemma CodeRecordedIff(w: World, e: Event, id: nat, code: ErrorCode)
    requires Sound(w) && id < |w.tasks| && OfWorkers(code) && w.tasks[id].error != Some(code)
    ensures Records(w, Step(w, e), id, code) <==>
              || ReportsError(w, e, id, code)
              || (IsOffered(w, e, id) && OfferingOf(w, w.tasks[id], e.replies, e.tooLong).outcome == Failed(code))
  {
    if !(e.Poll? || e.Recover? || e.Try?) || e.id >= |w.tasks| {
      OthersAreQuiet(w, e);
      QuietRecordsNone(w, Step(w, e), id, code);
      OnlyAskedReports(w, e, id, code);
    } else if e.Try? {
      TryRecords(w, e, id, code);
      EndsInMeans(w, e, id, code);
    } else {
      AskRecords(w, e, id, code);
    }
  }

  /** The offering ends in 413: all candidates answer so, or the one that decides refuses with that code. */
  ghost predicate OfferedTooLarge(w: World, e: Event, id: nat) {
    && IsOffered(w, e, id) && Blocked(w, w.tasks[id], e.tooLong).None?
    && var candidates := Candidates(w.nodes, w.tasks[id].wish);
       && candidates != []
       && (|| (forall n :: n in candidates ==> e.replies(n.id) == TooLarge)
           || exists n :: RefusesFirst(Rows(w.tasks), candidates, e.replies, n))
  }

  lemma OfferedTooLargeIff(w: World, e: Event, id: nat)
    requires DistinctIds(w.nodes) && IsOffered(w, e, id)
    ensures OfferedTooLarge(w, e, id)
            <==> OfferingOf(w, w.tasks[id], e.replies, e.tooLong).outcome == Failed(PayloadTooLarge)
  {
    var candidates := Candidates(w.nodes, w.tasks[id].wish);
    CandidatesDistinct(w.nodes, w.tasks[id].wish);
    if candidates != [] && Blocked(w, w.tasks[id], e.tooLong).None? {
      PayloadTooLargeIff(Rows(w.tasks), candidates, e.replies);
    }
  }

  lemma OneCodeMeansTooLarge(w: World, e: Event, id: nat)
    ensures ReportsError(w, e, id, PayloadTooLarge) <==> ReportOf(w, e, id) == Some(WorkerError("payload_too_large"))
  {
  }

  lemma TooLargeRecorded(w: World, e: Event, id: nat)
    requires Sound(w) && id < |w.tasks| && w.tasks[id].error != Some(PayloadTooLarge)
    ensures Records(w, Step(w, e), id, PayloadTooLarge) <==>
              OfferedTooLarge(w, e, id) || ReportsError(w, e, id, PayloadTooLarge)
  {
    CodeRecordedIff(w, e, id, PayloadTooLarge);
    if IsOffered(w, e, id) {
      OfferedTooLargeIff(w, e, id);
    }
  }

  /**
    `payload_too_large` is recorded, in every run, exactly when an offering finds all candidates
    answering 413, or refused with that code by the first that does not pass the task on, or when a
    worker reports that code as the task's error, at once on accepting it, to a poll or to recovery.
   */
  lemma PayloadTooLargeRecordedIff(w: World, events: seq<Event>, e: Event, id: nat)
    requires Sound(w) && PlausibleRun(w, events) && id < |Run(w, events).tasks|
    requires Run(w, events).tasks[id].error != Some(PayloadTooLarge)
    ensures var s := Run(w, events);
            Records(s, Step(s, e), id, PayloadTooLarge) <==>
              OfferedTooLarge(s, e, id) || ReportOf(s, e, id) == Some(WorkerError("payload_too_large"))
  {
    var s := Run(w, events);
    RunKeepsSound(w, events);
    TooLargeRecorded(s, e, id);
    OneCodeMeansTooLarge(s, e, id);
  }
}
