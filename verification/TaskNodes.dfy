/** What requests on worker nodes do to tasks, and which running tasks nobody looks at any more. */
module TaskNodes {
  import opened Prelude
  import opened Billing
  import opened Dispatch
  import opened TaskMachine
  import opened TaskRuns
  import opened TaskReports

  // ------------------------------------------------------------------ running, and left alone

  /** A running task without the id of a task on a worker. */
  predicate Stranded(t: Task) {
    t.status == Running && t.workerTask.None?
  }

  /** Only recovery after a restart and a move to other models take such a task up again. */
  predicate TakesUp(w: World, e: Event, id: nat)
    requires id < |w.tasks|
  {
    || (e.Recover? && e.id == id)
    || (e.Remediate? && Models(e.wish) in e.after && Moved(w.tasks[id], e.before, e.after, e.focus, e.wish))
  }

  ghost predicate NeverTakenUp(w: World, events: seq<Event>, id: nat)
    decreases |events|
  {
    events == []
    || var before := events[..|events| - 1];
       && NeverTakenUp(w, before, id) && id < |Run(w, before).tasks|
       && !TakesUp(Run(w, before), events[|events| - 1], id)
  }

  lemma ReportsElsewhere(w: World, other: nat, status: WorkerStatus, id: nat)
    requires other < |w.tasks| && id < |w.tasks| && other != id
    ensures |Reported(w, other, status).tasks| >= |w.tasks| && Reported(w, other, status).tasks[id] == w.tasks[id]
  {
  }

  lemma TryLeaves(w: World, e: Event, id: nat)
    requires id < |w.tasks| && Stranded(w.tasks[id]) && e.Try?
    ensures id < |Step(w, e).tasks| && Stranded(Step(w, e).tasks[id])
  {
    if e.id < |w.tasks| {
      TryIs(w, e);
      if IsOffered(w, e, e.id) {
        OfferedElsewhere(w, e.id, OfferingOf(w, w.tasks[e.id], e.replies, e.tooLong), id);
      }
    }
  }

  lemma OfferedElsewhere(w: World, other: nat, o: Offering, id: nat)
    requires other < |w.tasks| && id < |w.tasks| && other != id
    ensures |Offered(w, other, o).tasks| >= |w.tasks| && Offered(w, other, o).tasks[id] == w.tasks[id]
  {
    if o.outcome.AcceptedBy? {
      ReportsElsewhere(w.(tasks := w.tasks[other := Placed(w.tasks[other], o)]), other, o.outcome.status, id);
    }
  }

  lemma PollLeaves(w: World, e: Event, id: nat)
    requires id < |w.tasks| && Stranded(w.tasks[id]) && e.Poll?
    ensures id < |Step(w, e).tasks| && Stranded(Step(w, e).tasks[id])
  {
    if e.id < |w.tasks| && e.id != id && e.answer.Answered? {
      ReportsElsewhere(w, e.id, e.answer.status, id);
    }
  }

  lemma RecoverLeaves(w: World, e: Event, id: nat)
    requires id < |w.tasks| && Stranded(w.tasks[id]) && e.Recover? && e.id != id
    ensures id < |Step(w, e).tasks| && Stranded(Step(w, e).tasks[id])
  {
    if e.id < |w.tasks| && e.answer.Answered? {
      ReportsElsewhere(w, e.id, e.answer.status, id);
    }
  }

  lemma RequestLeaves(w: World, e: Event, id: nat)
    requires Sound(w) && id < |w.tasks| && Stranded(w.tasks[id]) && !TakesUp(w, e, id)
    requires !e.Poll? && !e.Try? && !e.Recover?
    ensures id < |Step(w, e).tasks| && Stranded(Step(w, e).tasks[id])
  {
  }

  lemma {:induction false} StrandedStays(w: World, events: seq<Event>, id: nat)
    requires Sound(w) && PlausibleRun(w, events) && id < |w.tasks| && Stranded(w.tasks[id])
    requires NeverTakenUp(w, events, id)
    ensures id < |Run(w, events).tasks| && Stranded(Run(w, events).tasks[id])
    decreases |events|
  {
    if events != [] {
      var before, e := events[..|events| - 1], events[|events| - 1];
      StrandedStays(w, before, id);
      RunKeepsSound(w, before);
      var s := Run(w, before);
      if e.Poll? {
        PollLeaves(s, e, id);
      } else if e.Try? {
        TryLeaves(s, e, id);
      } else if e.Recover? {
        RecoverLeaves(s, e, id);
      } else {
        RequestLeaves(s, e, id);
      }
    }
  }

  lemma RunOne(w: World, e: Event)
    requires Plausible(w, e)
    ensures PlausibleRun(w, [e]) && Run(w, [e]) == Step(w, e)
  {
    assert [e][..0] == [];
  }

  /** A poll whose worker reports an error ends the task; an unknown worker sends it back to the queue. */
  lemma PollEnds(w: World, id: nat)
    requires id < |w.tasks| && w.tasks[id].status == Running && w.tasks[id].workerTask.Some?
    ensures var more := [Poll(id, Answered(WorkerError("")))];
            && PlausibleRun(w, more) && NeverTakenUp(w, more, id)
            && id < |Run(w, more).tasks| && Run(w, more).tasks[id].status != Running
  {
    var e := Poll(id, Answered(WorkerError("")));
    RunOne(w, e);
    NotTakenUp(w, e, id);
    PollMoves(w, e, id);
  }

  lemma NotTakenUp(w: World, e: Event, id: nat)
    requires id < |w.tasks| && !TakesUp(w, e, id)
    ensures NeverTakenUp(w, [e], id)
  {
    var more, none: seq<Event> := [e], [];
    assert more[..|more| - 1] == none && more[|more| - 1] == e;
    assert NeverTakenUp(w, none, id) && Run(w, none) == w;
  }

  lemma PollMoves(w: World, e: Event, id: nat)
    requires id < |w.tasks| && w.tasks[id].status == Running && w.tasks[id].workerTask.Some?
    requires e == Poll(id, Answered(WorkerError("")))
    ensures id < |Step(w, e).tasks| && Step(w, e).tasks[id].status != Running
  {
  }

  ghost predicate LeftAlone(w: World, id: nat) {
    forall more :: PlausibleRun(w, more) && NeverTakenUp(w, more, id) ==>
      id < |Run(w, more).tasks| && Run(w, more).tasks[id].status == Running
  }

  /**
    A running task of any run is left running by every tick and every request of every continuation,
    until a restart or a move to other models, if and only if it has no task id on a worker.
   */
  lemma LeftAloneIff(w: World, events: seq<Event>, id: nat)
    requires Sound(w) && PlausibleRun(w, events)
    requires id < |Run(w, events).tasks| && Run(w, events).tasks[id].status == Running
    ensures LeftAlone(Run(w, events), id) <==> Run(w, events).tasks[id].workerTask.None?
  {
    var s := Run(w, events);
    RunKeepsSound(w, events);
    if s.tasks[id].workerTask.None? {
      forall more | PlausibleRun(s, more) && NeverTakenUp(s, more, id)
        ensures id < |Run(s, more).tasks| && Run(s, more).tasks[id].status == Running
      {
        StrandedStays(s, more, id);
      }
    } else {
      PollEnds(s, id);
    }
  }

  // ------------------------------------------------------------------ how a task comes to that

  /** Its node is removed, or a node accepts it without saying under which id, and is not done with it. */
  ghost predicate Strands(w: World, e: Event, id: nat)
    requires id < |w.tasks|
  {
    || (e.RemoveNode? && w.tasks[id].status == Running && w.tasks[id].worker == Some(e.node))
    || (IsOffered(w, e, id)
        && match OfferingOf(w, w.tasks[id], e.replies, e.tooLong).outcome
           case AcceptedBy(_, workerTask, status) => workerTask.None? && !status.WorkerSuccess? && !status.WorkerError?
           case _ => false)
  }

  lemma ReportNeverStrands(w: World, other: nat, status: WorkerStatus, id: nat)
    requires other < |w.tasks| && id < |w.tasks| && !Stranded(w.tasks[id])
    ensures id < |Reported(w, other, status).tasks| && !Stranded(Reported(w, other, status).tasks[id])
  {
  }

  lemma RowNeverStrands(w: World, other: nat, t': Task, id: nat)
    requires other < |w.tasks| && id < |w.tasks| && !Stranded(w.tasks[id]) && !Stranded(t')
    ensures var w' := w.(tasks := w.tasks[other := t']); id < |w'.tasks| && !Stranded(w'.tasks[id])
  {
  }

  lemma PollNeverStrands(w: World, e: Event, id: nat)
    requires Sound(w) && e.Poll? && e.id < |w.tasks| && id < |w.tasks| && !Stranded(w.tasks[id])
    ensures id < |Step(w, e).tasks| && !Stranded(Step(w, e).tasks[id])
  {
    assert RowSound(w, w.tasks[e.id]);
    RowNeverStrands(w, e.id, Requeued(w.tasks[e.id]), id);
    RowNeverStrands(w, e.id, Lost(w.tasks[e.id]), id);
    if e.answer.Answered? {
      ReportNeverStrands(w, e.id, e.answer.status, id);
    }
  }

  lemma RecoverNeverStrands(w: World, e: Event, id: nat)
    requires Sound(w) && e.Recover? && e.id < |w.tasks| && id < |w.tasks| && !Stranded(w.tasks[id])
    ensures id < |Step(w, e).tasks| && !Stranded(Step(w, e).tasks[id])
  {
    assert RowSound(w, w.tasks[e.id]);
    RowNeverStrands(w, e.id, Requeued(w.tasks[e.id]), id);
    RowNeverStrands(w, e.id, Lost(w.tasks[e.id]), id);
    if e.answer.Answered? {
      ReportNeverStrands(w, e.id, e.answer.status, id);
    }
  }

  lemma TryStrands(w: World, e: Event, id: nat)
    requires e.Try? && e.id < |w.tasks| && id < |w.tasks| && !Stranded(w.tasks[id])
    ensures id < |Step(w, e).tasks| && (Stranded(Step(w, e).tasks[id]) <==> Strands(w, e, id))
  {
    TryIs(w, e);
    if IsOffered(w, e, e.id) {
      var o := OfferingOf(w, w.tasks[e.id], e.replies, e.tooLong);
      OfferedStrands(w, e.id, o, id);
    }
  }

  lemma OfferedStrands(w: World, other: nat, o: Offering, id: nat)
    requires other < |w.tasks| && w.tasks[other].status == Queued && id < |w.tasks| && !Stranded(w.tasks[id])
    ensures id < |Offered(w, other, o).tasks|
    ensures Stranded(Offered(w, other, o).tasks[id]) <==>
              && id == other && o.outcome.AcceptedBy? && o.outcome.workerTask.None?
              && !o.outcome.status.WorkerSuccess? && !o.outcome.status.WorkerError?
  {
    var placed := w.(tasks := w.tasks[other := Placed(w.tasks[other], o)]);
    if o.outcome.AcceptedBy? && id != other {
      ReportsElsewhere(placed, other, o.outcome.status, id);
    }
  }

  lemma RequestStrands(w: World, e: Event, id: nat)
    requires Sound(w) && id < |w.tasks| && !Stranded(w.tasks[id]) && !e.Poll? && !e.Try? && !e.Recover?
    ensures id < |Step(w, e).tasks| && (Stranded(Step(w, e).tasks[id]) <==> Strands(w, e, id))
  {
    assert RowSound(w, w.tasks[id]);
  }

  /** In every run a task newly comes to run unseen exactly in these two ways. */
  lemma StrandsIff(w: World, events: seq<Event>, e: Event, id: nat)
    requires Sound(w) && PlausibleRun(w, events)
    requires id < |Run(w, events).tasks| && !Stranded(Run(w, events).tasks[id])
    ensures var s := Run(w, events);
            id < |Step(s, e).tasks| && (Stranded(Step(s, e).tasks[id]) <==> Strands(s, e, id))
  {
    var s := Run(w, events);
    RunKeepsSound(w, events);
    if (e.Poll? || e.Recover? || e.Try?) && e.id >= |s.tasks| {
    } else if e.Poll? {
      PollNeverStrands(s, e, id);
    } else if e.Recover? {
      RecoverNeverStrands(s, e, id);
    } else if e.Try? {
      TryStrands(s, e, id);
    } else {
      RequestStrands(s, e, id);
    }
  }

  // ------------------------------------------------------------------ a timeout after a waiting pool

  /** A node that offers the model "m" and does not answer, and the same node offering only "k". */
  function Silent(): Node {
    Node(0, true, Transcribe, 1, ["m"], [], None, 0, 0, map[])
  }

  function Changed(): Node {
    Node(0, true, Transcribe, 1, ["k"], [], None, 200, 0, map["k" := "disabled"])
  }

  function ForM(): Wish {
    Wish(Transcribe, "m", "", "")
  }

  function ForK(): Wish {
    Wish(Transcribe, "k", "", "")
  }

  function Shown(): Task {
    NewTask(ForM(), 0, 0, Snapshot(false, 0.0, 0.0), [], 0).(noTimeout := true)
  }

  function NoReply(id: nat): Reply {
    Unreached
  }

  /** A hub that gives a task a minute, with one audio and the silent node. */
  function Waited(tasks: seq<Task>, node: Node, now: int): World {
    NewHub().(timeoutSec := 60, audios := {0}, nextDoc := 1, tasks := tasks, nodes := [node], now := now)
  }

  /** Up to the moment the task is shown the waiting pool. */
  function Before(): seq<Event> {
    [AddAudio, SetNodes([Silent()]), Create(ForM(), 0, 0, Snapshot(false, 0.0, 0.0), [])]
  }

  function After(): seq<Event> {
    [Try(0, NoReply, false), SetNodes([Changed()]), Remediate({ForM()}, {ForK()}, 0, ForK()), Wait(60)]
  }

  /** A run that ends in this world. */
  ghost predicate Ends(w: World, events: seq<Event>, t: World) {
    PlausibleRun(w, events) && Run(w, events) == t
  }

  lemma Further(w: World, events: seq<Event>, t: World, e: Event, u: World)
    requires Ends(w, events, t) && Plausible(t, e) && Step(t, e) == u
    ensures Ends(w, events + [e], u)
  {
    assert (events + [e])[..|events|] == events;
  }

  lemma TwoPools()
    ensures PoolOf([Silent()], ForM()) == Waiting && PoolOf([Changed()], ForK()) == Empty
  {
    assert Silent() in [Silent()] && Offers(Silent(), ForM()) && Recovering(Silent(), ForM());
  }

  lemma Created(w: World)
    requires w == Waited([], Silent(), 0)
    ensures Step(w, Before()[2]) == Waited([Shown().(noTimeout := false)], Silent(), 0)
  {
  }

  lemma FirstHalf(w: World)
    requires w == NewHub().(timeoutSec := 60)
    ensures Ends(w, Before(), Waited([Shown().(noTimeout := false)], Silent(), 0))
  {
    var es := Before();
    var none: seq<Event> := [];
    var t := w.(audios := {0}, nextDoc := 1);
    Further(w, none, w, es[0], t);
    Further(w, none + [es[0]], t, es[1], Waited([], Silent(), 0));
    Created(Waited([], Silent(), 0));
    var queued := Waited([Shown().(noTimeout := false)], Silent(), 0);
    Further(w, none + [es[0]] + [es[1]], Waited([], Silent(), 0), es[2], queued);
    assert es == none + [es[0]] + [es[1]] + [es[2]];
  }

  lemma IsShown(w: World)
    requires w == Waited([Shown().(noTimeout := false)], Silent(), 0)
    ensures Sighting(w, After()[0], 0) && Step(w, After()[0]) == Waited([Shown()], Silent(), 0)
  {
    TwoPools();
  }

  lemma IsMoved(w: World)
    requires w == Waited([Shown()], Changed(), 0)
    ensures Step(w, After()[2]) == Waited([Shown().(noTimeout := false, wish := ForK())], Changed(), 0)
  {
  }

  lemma SecondHalf(w: World, events: seq<Event>)
    requires Ends(w, events, Waited([Shown().(noTimeout := false)], Silent(), 0))
    ensures Ends(w, events + After(), Waited([Shown().(noTimeout := false, wish := ForK())], Changed(), 60))
    ensures Sighting(Run(w, events), After()[0], 0)
  {
    var es := After();
    var moved := Shown().(noTimeout := false, wish := ForK());
    IsShown(Run(w, events));
    Further(w, events, Run(w, events), es[0], Waited([Shown()], Silent(), 0));
    IsMoved(Waited([Shown()], Changed(), 0));
    LastSteps(w, events + [es[0]], moved);
    assert events + es == events + [es[0]] + [es[1]] + [es[2]] + [es[3]];
  }

  lemma LastSteps(w: World, events: seq<Event>, moved: Task)
    requires Ends(w, events, Waited([Shown()], Silent(), 0))
    requires Step(Waited([Shown()], Changed(), 0), After()[2]) == Waited([moved], Changed(), 0)
    ensures Ends(w, events + [After()[1]] + [After()[2]] + [After()[3]], Waited([moved], Changed(), 60))
  {
    var es := After();
    Further(w, events, Waited([Shown()], Silent(), 0), es[1], Waited([Shown()], Changed(), 0));
    Further(w, events + [es[1]], Waited([Shown()], Changed(), 0), es[2], Waited([moved], Changed(), 0));
    Further(w, events + [es[1]] + [es[2]], Waited([moved], Changed(), 0), es[3], Waited([moved], Changed(), 60));
  }

  lemma TimesOutNow(w: World)
    requires w == Waited([Shown().(noTimeout := false, wish := ForK())], Changed(), 60)
    ensures var w' := Step(w, Try(0, NoReply, false));
            |w'.tasks| == 1 && w'.tasks[0].error == Some(DispatchTimeout)
  {
    TwoPools();
  }

  /**
    A task may time out although it was shown a waiting pool and is neither new since nor retried: a
    request on its node has moved it to other models meanwhile.
   */
  lemma TimesOutAfterWaiting()
    ensures exists w: World, events: seq<Event>, i: nat, e: Event ::
              && TaskRuns.Empty(w) && PlausibleRun(w, events)
              && i < |events| && Sighting(Run(w, events[..i]), events[i], 0)
              && (forall j :: i <= j < |events| ==> !events[j].Create? && !events[j].Retry?)
              && |Step(Run(w, events), e).tasks| == 1
              && Step(Run(w, events), e).tasks[0].error == Some(DispatchTimeout)
  {
    var w := NewHub().(timeoutSec := 60);
    FirstHalf(w);
    SecondHalf(w, Before());
    var events := Before() + After();
    assert events[..3] == Before() && events[3] == After()[0];
    TimesOutNow(Run(w, events));
  }
}
