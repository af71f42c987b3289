/** How final the outcome of a capture is: when it stays closed, when it stays a success. */
module CaptureOutcome {
  import opened Prelude
  import opened Capture
  import opened CaptureAudio

  // ------------------------------------------------------------------ when a closed task stays closed

  /** No removal read the task running, no tick is about to start it, and recovery does not hold it. */
  predicate Shut(s: State) {
    Remove(true) !in s.asks && !TickActsOn(s, Queued) && !s.dispatcher.Recovering?
  }

  lemma ShutTick(s: State, e: Event)
    requires Sound(s) && !Open(s.row) && Shut(s)
    ensures !Open(TickStep(s, e).row) && Shut(TickStep(s, e))
  {
  }

  lemma ShutThread(s: State, e: Event)
    requires Sound(s) && !Open(s.row) && Shut(s)
    ensures !Open(ThreadStep(s, e).row) && Shut(ThreadStep(s, e))
  {
    ThreadOnlyFails(s, e);
  }

  lemma ShutPersist(s: State, e: Event)
    requires Sound(s) && !Open(s.row) && Shut(s) && s.lock.Some?
    ensures !Open(PersistStep(s, e).row) && Shut(PersistStep(s, e))
  {
  }

  lemma ShutOther(s: State, e: Event)
    requires Sound(s) && !Open(s.row) && Shut(s)
    ensures !Open(OtherStep(s, e).row) && Shut(OtherStep(s, e))
  {
  }

  lemma ShutNext(s: State, e: Event)
    requires Sound(s) && !Open(s.row) && Shut(s)
    ensures !Open(Next(s, e).row) && Shut(Next(s, e))
  {
    if OfTick(e) {
      ShutTick(s, e);
    } else if OfThread(e) {
      ShutThread(s, e);
    } else if OfPersist(e) {
      if s.lock.Some? { ShutPersist(s, e); }
    } else {
      ShutOther(s, e);
    }
  }

  lemma {:induction false} ShutRuns(s: State, events: seq<Event>)
    requires Sound(s) && !Open(s.row) && Shut(s)
    ensures !Open(Run(s, events).row) && Shut(Run(s, events))
    decreases |events|
  {
    if events != [] {
      ShutRuns(s, events[..|events| - 1]);
      RunKeepsSound(s, events[..|events| - 1]);
      ShutNext(Run(s, events[..|events| - 1]), events[|events| - 1]);
    }
  }

  /** A tick that acts on an open reading without Audio comes to the point where it starts the task. */
  lemma TickComesToStart(s: State) returns (t: State)
    requires Sound(s) && s.dispatcher.Ticking? && s.dispatcher.pc != InPersist
    requires Open(s.dispatcher.seen) && s.dispatcher.seen.audio.None?
    ensures Leads(s, t) && Sound(t) && TickAt(t, Starting) && t.dispatcher.seen == s.dispatcher.seen
  {
    if TickAt(s, AtFinish) {
      LeadsOne(s, TickSkip);
      NextKeepsSound(s, TickSkip);
      t := TickAtStart(Next(s, TickSkip));
      LeadsOn(s, Next(s, TickSkip), t);
    } else if TickAt(s, AtStart) {
      t := TickAtStart(s);
    } else {
      var none: seq<Event> := [];
      assert Run(s, none) == s;
      t := s;
    }
  }

  lemma TickAtStart(s: State) returns (t: State)
    requires Sound(s) && TickAt(s, AtStart) && Open(s.dispatcher.seen) && s.dispatcher.seen.audio.None?
    ensures Leads(s, t) && Sound(t) && TickAt(t, Starting) && t.dispatcher.seen == s.dispatcher.seen
  {
    if Alive(s) {
      ThreadGoes(s);
      EmptiedIsSound(s);
      t := TickChecks(Emptied(s));
      LeadsOn(s, Emptied(s), t);
    } else {
      t := TickChecks(s);
    }
  }

  lemma EmptiedIsSound(s: State)
    requires Sound(s)
    ensures Sound(Emptied(s))
  {
  }

  lemma TickChecks(s: State) returns (t: State)
    requires Sound(s) && TickAt(s, AtStart) && Open(s.dispatcher.seen) && s.dispatcher.seen.audio.None? && !Alive(s)
    ensures Leads(s, t) && Sound(t) && TickAt(t, Starting) && t.dispatcher.seen == s.dispatcher.seen
  {
    t := Next(s, TickCheck);
    LeadsOne(s, TickCheck);
    NextKeepsSound(s, TickCheck);
  }

  /** The tick that waits to start the task does so. */
  lemma TickOpens(s: State) returns (t: State)
    requires Sound(s) && TickActsOn(s, Queued)
    ensures Leads(s, t) && t.row.status == Running
  {
    var u := TickComesToStart(s);
    LeadsMore(s, u, TickSpawn(false));
    t := Next(u, TickSpawn(false));
  }

  lemma NotShutOpens(s: State) returns (t: State)
    requires Sound(s) && !Shut(s)
    ensures Leads(s, t) && Open(t.row)
  {
    if TickActsOn(s, Queued) {
      t := TickOpens(s);
    } else {
      var e := if s.dispatcher.Recovering? then RecoverRequeue else Answer(Remove(true));
      t := Next(s, e);
      LeadsOne(s, e);
    }
  }

  ghost predicate StaysClosed(s: State) {
    forall events :: !Open(Run(s, events).row)
  }

  /** A closed capture stays closed in every continuation if and only if it is shut. */
  lemma StaysClosedIff(events: seq<Event>)
    requires !Open(Run(NewTask(), events).row)
    ensures StaysClosed(Run(NewTask(), events)) <==> Shut(Run(NewTask(), events))
  {
    var s := Run(NewTask(), events);
    RunKeepsSound(NewTask(), events);
    if Shut(s) {
      forall more ensures !Open(Run(s, more).row) {
        ShutRuns(s, more);
      }
    } else {
      var t := NotShutOpens(s);
      var more: seq<Event> :| Run(s, more) == t;
      assert Open(Run(s, more).row);
    }
  }

  // ------------------------------------------------------------------ when a task runs again

  /**
    A task that does not run can be started by a tick on an old reading, or in the queue if a worker is
    named or comes to be named, also once the removal of its node has put it there.
   */
  predicate Startable(s: State) {
    || TickActsOn(s, Queued)
    || (s.row.status == Queued && HasWorker(s))
    || (Remove(true) in s.asks && WorkerComes(s))
  }

  lemma IdleTick(s: State, e: Event)
    requires Sound(s) && s.row.status != Running && !Startable(s)
    ensures TickStep(s, e).row.status != Running && !Startable(TickStep(s, e))
  {
  }

  lemma IdleBinding(s: State, e: Event)
    requires Sound(s) && s.row.status != Running && !Startable(s) && (e.ThreadRead? || e.ThreadBind?)
    ensures ThreadStep(s, e).row.status != Running && !Startable(ThreadStep(s, e))
  {
    ThreadOnlyFails(s, e);
    if e.id in s.threads {
      assert s.registered == Some(e.id) && Pc(s) == s.threads[e.id];
    }
  }

  /** The other steps of a thread name no worker and are no way to name one. */
  lemma NamesNoWorker(s: State, e: Event)
    requires Sound(s) && OfThread(e) && !e.ThreadRead? && !e.ThreadBind?
    ensures (ThreadStep(s, e).row.worker ==> s.row.worker) && (BindsWithUrl(ThreadStep(s, e)) ==> BindsWithUrl(s))
  {
    if e.id in s.threads {
      assert s.registered == Some(e.id);
    }
  }

  lemma IdleThread(s: State, e: Event)
    requires Sound(s) && s.row.status != Running && !Startable(s) && OfThread(e)
    ensures ThreadStep(s, e).row.status != Running && !Startable(ThreadStep(s, e))
  {
    if e.ThreadRead? || e.ThreadBind? {
      IdleBinding(s, e);
    } else {
      ThreadOnlyFails(s, e);
      NamesNoWorker(s, e);
    }
  }

  lemma IdlePersist(s: State, e: Event)
    requires Sound(s) && s.row.status != Running && !Startable(s) && s.lock.Some?
    ensures PersistStep(s, e).row.status != Running && !Startable(PersistStep(s, e))
  {
    PersistCloses(s, e);
    if s.lock.value.who.Thread? {
      assert s.registered == Some(s.lock.value.who.id);
    }
  }

  /** A persist call that finds the task not running closes it or leaves its row as it is. */
  lemma PersistCloses(s: State, e: Event)
    requires s.lock.Some? && s.row.status != Running
    ensures var t := PersistStep(s, e);
            && t.asks == s.asks && t.row.worker == s.row.worker
            && (t.row.status == s.row.status || t.row.status == Error || t.row.status == Success)
            && (t.dispatcher == s.dispatcher || t.dispatcher == Ticking(t.row, AtStart))
  {
  }

  lemma IdleRequest(s: State, e: Event)
    requires Sound(s) && s.row.status != Running && !Startable(s) && e.Request?
    ensures OtherStep(s, e).row.status != Running && !Startable(OtherStep(s, e))
  {
    AnswersOnly(s, e);
  }

  lemma IdleAnswer(s: State, e: Event)
    requires Sound(s) && s.row.status != Running && !Startable(s) && e.Answer?
    ensures OtherStep(s, e).row.status != Running && !Startable(OtherStep(s, e))
  {
    AnswersOnly(s, e);
    if !e.ask.Remove? {
      AnswerBrings(s, e);
    }
  }

  lemma IdleOther(s: State, e: Event)
    requires Sound(s) && s.row.status != Running && !Startable(s)
    ensures OtherStep(s, e).row.status != Running && !Startable(OtherStep(s, e))
  {
    if e.Request? {
      IdleRequest(s, e);
    } else if e.Answer? {
      IdleAnswer(s, e);
    }
  }

  lemma {:induction false} IdleRuns(s: State, events: seq<Event>)
    requires Sound(s) && s.row.status != Running && !Startable(s)
    ensures Run(s, events).row.status != Running && !Startable(Run(s, events))
    decreases |events|
  {
    if events != [] {
      var before, e := events[..|events| - 1], events[|events| - 1];
      IdleRuns(s, before);
      RunKeepsSound(s, before);
      var t := Run(s, before);
      if OfTick(e) {
        IdleTick(t, e);
      } else if OfThread(e) {
        IdleThread(t, e);
      } else if OfPersist(e) {
        if t.lock.Some? { IdlePersist(t, e); }
      } else {
        IdleOther(t, e);
      }
    }
  }

  /** A waiting task with a worker is started by the next tick. */
  lemma WorkerStarts(s: State) returns (t: State)
    requires Sound(s) && s.row.status == Queued && s.row.worker
    ensures Leads(s, t) && t.row.status == Running
  {
    if s.dispatcher.Idle? {
      t := NextTickStarts(s);
    } else {
      var e := if s.dispatcher.Ticking? then TickAbort else RecoverKeep(false);
      LeadsOne(s, e);
      NextKeepsSound(s, e);
      t := NextTickStarts(Next(s, e));
      LeadsOn(s, Next(s, e), t);
    }
  }

  lemma NextTickStarts(s: State) returns (t: State)
    requires Sound(s) && s.row.status == Queued && s.row.worker && s.dispatcher.Idle?
    ensures Leads(s, t) && t.row.status == Running
  {
    var free := WithoutAudio(s);
    LeadsOne(s, DeleteAudio);
    NextKeepsSound(s, DeleteAudio);
    LeadsMore(s, free, TickBegin);
    NextKeepsSound(free, TickBegin);
    t := TickOpens(Next(free, TickBegin));
    LeadsOn(s, Next(free, TickBegin), t);
  }

  lemma QueuedStarts(s: State) returns (t: State)
    requires Sound(s) && s.row.status == Queued && HasWorker(s)
    ensures Leads(s, t) && t.row.status == Running
  {
    if s.row.worker {
      t := WorkerStarts(s);
    } else {
      var e := if Move in s.asks then Answer(Move) else ThreadBind(s.registered.value, true, true);
      LeadsOne(s, e);
      NextKeepsSound(s, e);
      t := WorkerStarts(Next(s, e));
      LeadsOn(s, Next(s, e), t);
    }
  }

  lemma StartableStarts(s: State) returns (t: State)
    requires Sound(s) && Startable(s)
    ensures Leads(s, t) && t.row.status == Running
  {
    if TickActsOn(s, Queued) {
      t := TickOpens(s);
    } else if s.row.status == Queued && HasWorker(s) {
      t := QueuedStarts(s);
    } else {
      LeadsOne(s, Answer(Remove(true)));
      NextKeepsSound(s, Answer(Remove(true)));
      t := QueuedStarts(Next(s, Answer(Remove(true))));
      LeadsOn(s, Next(s, Answer(Remove(true))), t);
    }
  }

  ghost predicate RunsAgain(s: State) {
    exists events :: Run(s, events).row.status == Running
  }

  /**
    A capture that does not run, in whatever run, runs in some continuation if and only if it is startable:
    sent back to the queue without a worker, it only ever fails, unless somebody names one.
   */
  lemma RunsAgainIff(events: seq<Event>)
    requires Run(NewTask(), events).row.status != Running
    ensures RunsAgain(Run(NewTask(), events)) <==> Startable(Run(NewTask(), events))
  {
    var s := Run(NewTask(), events);
    RunKeepsSound(NewTask(), events);
    if Startable(s) {
      var t := StartableStarts(s);
      var more: seq<Event> :| Run(s, more) == t;
      assert Run(s, more).row.status == Running;
    } else {
      forall more ensures Run(s, more).row.status != Running {
        IdleRuns(s, more);
      }
    }
  }

  // ------------------------------------------------------------------ when success stays

  /** Nobody is left who would write the row from what it read before the task succeeded. */
  predicate Settled(s: State) {
    && Cancel !in s.asks && Remove(true) !in s.asks && Pc(s) == Leaving
    && match s.dispatcher
       case Ticking(seen, pc) => pc == InPersist || (pc != Starting && (!Open(seen) || seen.audio.Some?))
       case Recovering(_) => false
       case _ => true
  }

  ghost predicate SuccessStays(s: State) {
    forall events :: Run(s, events).row.status == Success
  }

  lemma SettledTick(s: State, e: Event)
    requires Sound(s) && s.row.status == Success && Settled(s)
    ensures TickStep(s, e).row.status == Success && Settled(TickStep(s, e))
  {
  }

  lemma SettledThread(s: State, e: Event)
    requires Sound(s) && s.row.status == Success && Settled(s)
    ensures ThreadStep(s, e).row.status == Success && Settled(ThreadStep(s, e))
  {
  }

  lemma SettledPersist(s: State, e: Event)
    requires Sound(s) && s.row.status == Success && Settled(s) && s.lock.Some?
    ensures PersistStep(s, e).row.status == Success && Settled(PersistStep(s, e))
  {
  }

  lemma SettledAnswer(s: State, e: Event)
    requires Sound(s) && s.row.status == Success && Settled(s) && (e.Request? || e.Answer?)
    ensures var t := OtherStep(s, e);
            t.row.status == Success && Cancel !in t.asks && Remove(true) !in t.asks
  {
  }

  lemma SettledOther(s: State, e: Event)
    requires Sound(s) && s.row.status == Success && Settled(s)
    ensures OtherStep(s, e).row.status == Success && Settled(OtherStep(s, e))
  {
    if e.Request? || e.Answer? {
      AnswersOnly(s, e);
      SettledAnswer(s, e);
    }
  }

  lemma SettledNext(s: State, e: Event)
    requires Sound(s) && s.row.status == Success && Settled(s)
    ensures Next(s, e).row.status == Success && Settled(Next(s, e))
  {
    if OfTick(e) {
      SettledTick(s, e);
    } else if OfThread(e) {
      SettledThread(s, e);
    } else if OfPersist(e) {
      if s.lock.Some? { SettledPersist(s, e); }
    } else {
      SettledOther(s, e);
    }
  }

  lemma {:induction false} SettledRuns(s: State, events: seq<Event>)
    requires Sound(s) && s.row.status == Success && Settled(s)
    ensures Run(s, events).row.status == Success && Settled(Run(s, events))
    decreases |events|
  {
    if events != [] {
      SettledRuns(s, events[..|events| - 1]);
      RunKeepsSound(s, events[..|events| - 1]);
      SettledNext(Run(s, events[..|events| - 1]), events[|events| - 1]);
    }
  }

  /** A thread that is not yet leaving can fail and write so. */
  lemma ThreadCanFail(s: State) returns (t: State)
    requires Sound(s) && Pc(s) != Leaving
    ensures Leads(s, t) && t.row.status == Error
  {
    var id := s.registered.value;
    LeadsOne(s, ThreadRaise(id));
    t := Next(Next(s, ThreadRaise(id)), ThreadFail(id, false));
    LeadsMore(s, Next(s, ThreadRaise(id)), ThreadFail(id, false));
  }

  /** A tick that still sees an open task without audio can find no capacity and write a failure. */
  lemma TickCanFail(s: State) returns (t: State)
    requires Sound(s) && s.dispatcher.Ticking? && s.dispatcher.pc != InPersist && Pc(s) == Leaving
    requires TickAt(s, Starting) || (Open(s.dispatcher.seen) && s.dispatcher.seen.audio.None?)
    ensures Leads(s, t) && t.row.status == Error
  {
    var u := TickComesToStart(s);
    t := Next(u, TickNoCapacity);
    LeadsMore(s, u, TickNoCapacity);
  }

  /** A request that read the task open, or recovery, writes over the success. */
  lemma AnswerCanFail(s: State, ask: Ask)
    requires ask in s.asks && (ask == Cancel || ask == Remove(true))
    ensures Leads(s, Next(s, Answer(ask))) && Next(s, Answer(ask)).row.status != Success
  {
    LeadsOne(s, Answer(ask));
  }

  lemma RecoveryCanFail(s: State)
    requires s.dispatcher.Recovering?
    ensures Leads(s, Next(s, RecoverFail)) && Next(s, RecoverFail).row.status != Success
  {
    LeadsOne(s, RecoverFail);
  }

  lemma UnsettledCanFail(s: State) returns (t: State)
    requires Sound(s) && s.row.status == Success && !Settled(s)
    ensures Leads(s, t) && t.row.status != Success
  {
    if Cancel in s.asks || Remove(true) in s.asks {
      var ask := if Cancel in s.asks then Cancel else Remove(true);
      AnswerCanFail(s, ask);
      t := Next(s, Answer(ask));
    } else if s.dispatcher.Recovering? {
      RecoveryCanFail(s);
      t := Next(s, RecoverFail);
    } else if Pc(s) != Leaving {
      t := ThreadCanFail(s);
    } else {
      t := TickCanFail(s);
    }
  }

  /**
    A capture that has succeeded, in whatever run, keeps its success in every continuation if and only
    if no cancel is under way and no removal that read it running, every thread is on its way out, and
    neither recovery nor a tick still acts on a reading of the open task.
   */
  lemma SuccessStaysIff(events: seq<Event>)
    requires Run(NewTask(), events).row.status == Success
    ensures SuccessStays(Run(NewTask(), events)) <==> Settled(Run(NewTask(), events))
  {
    var s := Run(NewTask(), events);
    RunKeepsSound(NewTask(), events);
    if Settled(s) {
      forall more ensures Run(s, more).row.status == Success {
        SettledRuns(s, more);
      }
    } else {
      var t := UnsettledCanFail(s);
      var more: seq<Event> :| Run(s, more) == t;
      assert Run(s, more).row.status != Success;
    }
  }

  // ------------------------------------------------------------------ runs in which it goes wrong

  function Fresh(): Row {
    Row(Running, None, true, true, true)
  }

  /** A new task whose first thread has posted the capture to its worker. */
  function Working(): State {
    NewTask().(row := Fresh(), threads := map[0 := Busy(true)], registered := Some(0), nextThread := 1)
  }

  /** Thread `id` is started by a tick that has read this row. */
  function Started(row: Row, id: nat): State {
    NewTask().(row := row.(status := Running), threads := map[id := Begin], registered := Some(id),
               nextThread := id + 1)
  }

  /** A step to a state that is given in full. */
  lemma To(s: State, t: State, e: Event, u: State)
    requires Leads(s, t) && Next(t, e) == u
    ensures Leads(s, u)
  {
    LeadsMore(s, t, e);
  }

  predicate Untouched(s: State) {
    && s.dispatcher.Idle? && s.threads == map[] && s.registered == None && s.lock.None? && s.asks == multiset{}
    && s.saved == [] && s.chained == 0
  }

  lemma TickReads(s: State)
    requires Untouched(s) && Open(s.row) && s.row.audio.None?
    ensures Leads(s, s.(dispatcher := Ticking(s.row, Starting)))
  {
    LeadsOne(s, TickBegin);
    To(s, s.(dispatcher := Ticking(s.row, AtFinish)), TickSkip, s.(dispatcher := Ticking(s.row, AtStart)));
    To(s, s.(dispatcher := Ticking(s.row, AtStart)), TickCheck, s.(dispatcher := Ticking(s.row, Starting)));
  }

  /** A tick reads an open task nobody works on, and starts it. */
  lemma TickStarts(s: State, id: nat)
    requires Untouched(s) && s.nextThread == id && Open(s.row) && s.row.audio.None? && s.row.worker
    ensures Leads(s, Started(s.row, id))
  {
    TickReads(s);
    To(s, s.(dispatcher := Ticking(s.row, Starting)), TickSpawn(false), Started(s.row, id));
  }

  /** The first thread has read the row and bound its worker. */
  lemma FirstWorks(s: State)
    requires s == Started(NewTask().row, 0)
    ensures Leads(s, Working())
  {
    LeadsOne(s, ThreadRead(0));
    var read := s.(threads := map[0 := Read(s.row)]);
    var busy := s.(threads := map[0 := Busy(true)]);
    To(s, read, ThreadBind(0, false, true), busy);
    To(s, busy, ThreadPost(0), Working());
  }

  lemma WorkingIsReached()
    ensures Leads(NewTask(), Working())
  {
    TickStarts(NewTask(), 0);
    FirstWorks(Started(NewTask().row, 0));
    LeadsOn(NewTask(), Started(NewTask().row, 0), Working());
  }

  /** After a restart a second thread has read the row, when the removal of the node is asked for. */
  function Resumed(): State {
    Started(Fresh(), 1).(threads := map[1 := Read(Fresh())], asks := multiset{Remove(true)})
  }

  /** The hub comes back up with the task running. */
  function Restarted(): State {
    NewTask().(row := Fresh(), nextThread := 1)
  }

  lemma HubStops(booting: State)
    requires booting == Restarted().(dispatcher := Booting)
    ensures Leads(Working(), booting)
  {
    assert Next(Working(), Restart) == booting;
    LeadsOne(Working(), Restart);
  }

  lemma HubRecovers(s: State)
    requires s.dispatcher.Booting? && s.row.status == Running && s.row.url
    ensures Leads(s, s.(dispatcher := Idle))
  {
    LeadsOne(s, RecoverBegin);
    To(s, s.(dispatcher := Recovering(s.row)), RecoverKeep(true), s.(dispatcher := Idle));
  }

  lemma HubRestarts()
    ensures Leads(Working(), Restarted())
  {
    var booting := Restarted().(dispatcher := Booting);
    HubStops(booting);
    HubRecovers(booting);
    assert booting.(dispatcher := Idle) == Restarted();
    LeadsOn(Working(), booting, Restarted());
  }

  lemma SecondReads(s: State)
    requires s == Started(Fresh(), 1)
    ensures Leads(s, Resumed())
  {
    LeadsOne(s, ThreadRead(1));
    To(s, s.(threads := map[1 := Read(Fresh())]), Request(Remove(true)), Resumed());
  }

  lemma ResumedIsReached()
    ensures Leads(NewTask(), Resumed())
  {
    WorkingIsReached();
    HubRestarts();
    LeadsOn(NewTask(), Working(), Restarted());
    TickStarts(Restarted(), 1);
    LeadsOn(NewTask(), Restarted(), Started(Fresh(), 1));
    SecondReads(Started(Fresh(), 1));
    LeadsOn(NewTask(), Started(Fresh(), 1), Resumed());
  }

  /** A persist call that a tick makes in the place of the thread, at one of its stages. */
  function Midway(s: State, stage: Stage, bytes: nat): State {
    s.(dispatcher := Ticking(Fresh(), InPersist), lock := Some(Hold(Tick, stage, Done(), bytes, true)))
  }

  lemma TickEnters(s: State)
    requires s.dispatcher.Idle? && s.row == Fresh() && s.lock.None?
    ensures Leads(s, Midway(s, Entered, 0))
  {
    LeadsOne(s, TickBegin);
    To(s, s.(dispatcher := Ticking(Fresh(), AtFinish)), TickPersist(Done()), Midway(s, Entered, 0));
  }

  function HeldThere(s: State, stage: Stage, bytes: nat): State
    requires s.lock.Some?
  {
    s.(lock := Some(Hold(s.lock.value.who, stage, Done(), bytes, true)))
  }

  /** Whoever holds the lock on the fresh row comes to save the file. */
  lemma Downloads(s: State)
    requires s.row == Fresh() && s.lock.Some? && s == HeldThere(s, Entered, 0)
    ensures Leads(s, HeldThere(s, Saving, 512))
  {
    LeadsOne(s, PersistRefresh);
    To(s, HeldThere(s, Noting, 0), PersistNote, HeldThere(s, Downloading, 0));
    To(s, HeldThere(s, Downloading, 0), PersistDownloaded(512, true), HeldThere(s, Saving, 512));
  }

  /** It commits the Audio row. */
  function Finished(s: State): State {
    s.(row := Fresh().(status := Success, audio := Some(0)), saved := [Saved(Done(), 512)],
       dispatcher := Ticking(Fresh().(status := Success, audio := Some(0)), AtStart))
  }

  lemma TickCommits(s: State, p: State)
    requires s.row == Fresh() && s.lock.None? && s.saved == [] && s.chained == 0 && p == Midway(s, Saving, 512)
    ensures Leads(p, Finished(s))
  {
    assert Next(p, PersistCommit(false)) == Finished(s);
    LeadsOne(p, PersistCommit(false));
  }

  lemma TickFinishes(s: State)
    requires s.dispatcher.Idle? && s.row == Fresh() && s.lock.None? && s.saved == [] && s.chained == 0
    ensures Leads(s, Finished(s))
  {
    TickEnters(s);
    Downloads(Midway(s, Entered, 0));
    LeadsOn(s, Midway(s, Entered, 0), Midway(s, Saving, 512));
    TickCommits(s, Midway(s, Saving, 512));
    LeadsOn(s, Midway(s, Saving, 512), Finished(s));
  }

  /** The Audio row is committed, the second thread has yet to bind, and the removal is yet to be written. */
  function Overtaken(): State {
    Finished(Resumed())
  }

  lemma OvertakenIsReached()
    ensures Leads(NewTask(), Overtaken())
  {
    ResumedIsReached();
    TickFinishes(Resumed());
    LeadsOn(NewTask(), Resumed(), Overtaken());
  }

  /**
    A second Audio row: the removal of the node puts the finished task back into the queue, and the thread
    that read it before binds another worker.
   */
  lemma SecondAudio()
    ensures exists events :: |Run(NewTask(), events).saved| >= 2
  {
    OvertakenIsReached();
    var first: seq<Event> :| Run(NewTask(), first) == Overtaken();
    assert Savable(Overtaken());
    AnotherAudioIff(first);
    var rest: seq<Event> :| |Run(Overtaken(), rest).saved| > 1;
    RunOn(NewTask(), first, rest);
    assert |Run(NewTask(), first + rest).saved| >= 2;
  }

  /** A removal that read the task running is written after its success: the task waits again, with its Audio. */
  lemma RequeuedAfterSuccess()
    ensures exists events ::
              var s := Run(NewTask(), events);
              |s.saved| == 1 && s.row.status == Queued && s.row.audio == Some(0) && !s.row.worker
  {
    OvertakenIsReached();
    LeadsMore(NewTask(), Overtaken(), Answer(Remove(true)));
    var events: seq<Event> :| Run(NewTask(), events) == Next(Overtaken(), Answer(Remove(true)));
    assert Run(NewTask(), events).row.status == Queued;
  }
  /** A persist call that the first thread makes, while a cancel has read the row. */
  function Held(stage: Stage, bytes: nat): State {
    Working().(threads := map[0 := Persisting], asks := multiset{Cancel},
               lock := Some(Hold(Thread(0), stage, Done(), bytes, true)))
  }

  lemma ThreadEnters()
    ensures Leads(Working(), Held(Entered, 0))
  {
    LeadsOne(Working(), Request(Cancel));
    var asked := Working().(asks := multiset{Cancel});
    To(Working(), asked, ThreadPersist(0, Done()), Held(Entered, 0));
  }

  /** The thread has committed, and the cancel is yet to be written. */
  function Succeeded(): State {
    Working().(row := Fresh().(status := Success, audio := Some(0)), threads := map[0 := Leaving],
               asks := multiset{Cancel}, saved := [Saved(Done(), 512)])
  }

  lemma ThreadCommits()
    ensures Leads(Held(Saving, 512), Succeeded())
  {
    assert Next(Held(Saving, 512), PersistCommit(false)) == Succeeded();
    LeadsOne(Held(Saving, 512), PersistCommit(false));
  }

  lemma SucceededIsReached()
    ensures Leads(NewTask(), Succeeded())
  {
    WorkingIsReached();
    ThreadEnters();
    Downloads(Held(Entered, 0));
    ThreadCommits();
    LeadsOn(NewTask(), Working(), Held(Entered, 0));
    LeadsOn(NewTask(), Held(Entered, 0), Held(Saving, 512));
    LeadsOn(NewTask(), Held(Saving, 512), Succeeded());
  }

  /** A cancel that checked the row in time is written after the success. */
  lemma CancelAfterSuccess()
    ensures exists events ::
              var s := Run(NewTask(), events);
              |s.saved| == 1 && s.row.status == Error && s.row.audio == Some(0)
  {
    SucceededIsReached();
    LeadsMore(NewTask(), Succeeded(), Answer(Cancel));
    var events: seq<Event> :| Run(NewTask(), events) == Next(Succeeded(), Answer(Cancel));
    assert Run(NewTask(), events).row.status == Error;
  }
}
