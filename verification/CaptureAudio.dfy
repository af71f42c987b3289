/** Exactly when a capture can still have an Audio row, its first or another one, committed for it. */
module CaptureAudio {
  import opened Prelude
  import opened Capture

  // ------------------------------------------------------------------ when another Audio row can come

  /** Some continuation commits an Audio row. */
  ghost predicate CanSave(s: State) {
    exists events: seq<Event> :: |Run(s, events).saved| > |s.saved|
  }

  /** Where the thread is that is in its body; there is never another. */
  function Pc(s: State): ThreadPc {
    if Alive(s) then s.threads[s.registered.value] else Leaving
  }

  predicate BindsWithUrl(s: State) {
    Pc(s).Read? && Pc(s).seen.url
  }

  predicate AtWork(s: State) {
    Pc(s).Begin? || Pc(s).Busy?
  }

  /** The tick has read the task as waiting, or as running, with a worker and without Audio. */
  predicate TickActsOn(s: State, status: Status) {
    && s.dispatcher.Ticking? && s.dispatcher.pc != InPersist
    && s.dispatcher.seen.status == status && s.dispatcher.seen.worker && s.dispatcher.seen.audio.None?
  }

  /** Somebody may yet write a worker into the row. */
  predicate WorkerComes(s: State) {
    Move in s.asks || BindsWithUrl(s)
  }

  /** Somebody may yet write the address of the meeting back without closing the task. */
  predicate UrlComes(s: State) {
    || Stop(true) in s.asks || (Pc(s).Busy? && Pc(s).url) || BindsWithUrl(s) || HeldAt(s, Noting)
    || (TickAt(s, AtFinish) && Finishable(s.dispatcher.seen) && s.dispatcher.seen.url)
    || (s.dispatcher.Recovering? && s.dispatcher.seen.url)
  }

  /** A thread under the persist lock holds the address, and writes it with a failure. */
  predicate FailsWithUrl(s: State) {
    HeldAt(s, Downloading) && s.lock.value.who.Thread?
  }

  /** Or it is held where the removal of the node does not wipe it: a busy thread may yet read it. */
  predicate UrlOutlives(s: State) {
    UrlComes(s) || FailsWithUrl(s) || (Pc(s).Busy? && (s.row.url || HeldAt(s, Downloading)))
  }

  predicate HasWorker(s: State) {
    s.row.worker || WorkerComes(s)
  }

  predicate HasUrl(s: State) {
    s.row.url || UrlComes(s)
  }

  /** A running task with all it needs to be carried through. */
  predicate CanFinish(s: State) {
    && s.row.status == Running
    && (|| HeldAt(s, Noting) || HeldAt(s, Downloading)
        || (HasUrl(s) && (HasWorker(s) || AtWork(s) || s.lock.Some? || TickActsOn(s, Running))))
  }

  /**
    The file is being saved, the task runs and can be finished, it waits and can be started, a tick is
    about to start it on an old reading, or the removal of its node is about to send it back to the queue
    while somebody else is about to name a worker and the address again.
   */
  predicate Savable(s: State) {
    || HeldAt(s, Saving)
    || CanFinish(s)
    || (s.row.status == Queued && HasWorker(s) && (HasUrl(s) || FailsWithUrl(s)))
    || (TickActsOn(s, Queued) && (HasUrl(s) || s.dispatcher.seen.url || FailsWithUrl(s)))
    || (Remove(true) in s.asks && (WorkerComes(s) || (s.row.status == Queued && s.row.worker)) && UrlOutlives(s))
  }

  // ------------------------------------------------------------------ otherwise none comes

  predicate OfReading(e: Event) {
    e.TickBegin? || e.TickSkip? || e.TickNote? || e.TickPersist?
  }

  lemma TickReadingBarred(s: State, e: Event)
    requires Sound(s) && !Savable(s) && OfReading(e)
    ensures !Savable(TickStep(s, e)) && TickStep(s, e).saved == s.saved
  {
  }

  lemma TickStartBarred(s: State, e: Event)
    requires Sound(s) && !Savable(s) && !OfReading(e)
    ensures !Savable(TickStep(s, e)) && TickStep(s, e).saved == s.saved
  {
  }

  lemma TickBarred(s: State, e: Event)
    requires Sound(s) && !Savable(s)
    ensures !Savable(TickStep(s, e)) && TickStep(s, e).saved == s.saved
  {
    if OfReading(e) {
      TickReadingBarred(s, e);
    } else {
      TickStartBarred(s, e);
    }
  }

  lemma ReadingBarred(s: State, e: Event)
    requires Sound(s) && !Savable(s) && e.ThreadRead?
    ensures !Savable(ThreadStep(s, e)) && ThreadStep(s, e).saved == s.saved
  {
  }

  lemma BindingBarred(s: State, e: Event)
    requires Sound(s) && !Savable(s) && e.ThreadBind?
    ensures !Savable(ThreadStep(s, e)) && ThreadStep(s, e).saved == s.saved
  {
    ThreadOnlyFails(s, e);
    if e.id in s.threads && s.threads[e.id].Read? {
      assert s.registered == Some(e.id) && Pc(s) == s.threads[e.id];
    }
  }

  lemma WorkBarred(s: State, e: Event)
    requires Sound(s) && !Savable(s) && OfWork(e)
    ensures !Savable(ThreadStep(s, e)) && ThreadStep(s, e).saved == s.saved
  {
  }

  lemma FailingBarred(s: State, e: Event)
    requires Sound(s) && !Savable(s) && e.ThreadFail?
    ensures !Savable(ThreadStep(s, e)) && ThreadStep(s, e).saved == s.saved
  {
    var t := ThreadStep(s, e);
    if t != s {
      FailingBrings(s, e);
      assert t.row.status == Error && TickActsOn(t, Queued) == TickActsOn(s, Queued);
    }
  }

  /** A failing thread brings nothing that was not to come. */
  lemma FailingBrings(s: State, e: Event)
    requires Sound(s) && e.ThreadFail? && ThreadStep(s, e) != s
    ensures var t := ThreadStep(s, e);
            && t.row.status == Error && t.dispatcher == s.dispatcher && t.lock == s.lock && t.asks == s.asks
            && t.saved == s.saved && Pc(t) == Leaving && (HasUrl(t) ==> HasUrl(s)) && (UrlComes(t) ==> UrlComes(s))
  {
    ThreadOnlyFails(s, e);
    assert s.registered == Some(e.id);
  }

  lemma LeavingBarred(s: State, e: Event)
    requires Sound(s) && !Savable(s) && !e.ThreadRead? && !e.ThreadBind? && !OfWork(e) && !e.ThreadFail?
    ensures !Savable(ThreadStep(s, e)) && ThreadStep(s, e).saved == s.saved
  {
  }

  lemma ThreadBarred(s: State, e: Event)
    requires Sound(s) && !Savable(s)
    ensures !Savable(ThreadStep(s, e)) && ThreadStep(s, e).saved == s.saved
  {
    if e.ThreadRead? {
      ReadingBarred(s, e);
    } else if e.ThreadBind? {
      BindingBarred(s, e);
    } else if OfWork(e) {
      WorkBarred(s, e);
    } else if e.ThreadFail? {
      FailingBarred(s, e);
    } else {
      LeavingBarred(s, e);
    }
  }

  lemma RefreshBarred(s: State, e: Event)
    requires Sound(s) && !Savable(s) && s.lock.Some? && (e.PersistRefresh? || e.PersistNote?)
    ensures !Savable(PersistStep(s, e)) && PersistStep(s, e).saved == s.saved
  {
  }

  lemma DownloadBarred(s: State, e: Event)
    requires Sound(s) && !Savable(s) && s.lock.Some? && !e.PersistRefresh? && !e.PersistNote?
    ensures !Savable(PersistStep(s, e)) && PersistStep(s, e).saved == s.saved
  {
  }

  lemma PersistBarred(s: State, e: Event)
    requires Sound(s) && !Savable(s) && s.lock.Some?
    ensures !Savable(PersistStep(s, e)) && PersistStep(s, e).saved == s.saved
  {
    if e.PersistRefresh? || e.PersistNote? {
      RefreshBarred(s, e);
    } else {
      DownloadBarred(s, e);
    }
  }

  lemma RequestBarred(s: State, e: Event)
    requires Sound(s) && !Savable(s) && e.Request?
    ensures !Savable(OtherStep(s, e)) && OtherStep(s, e).saved == s.saved
  {
  }

  lemma RemovalBarred(s: State, e: Event)
    requires Sound(s) && !Savable(s) && e.Answer? && e.ask.Remove?
    ensures !Savable(OtherStep(s, e)) && OtherStep(s, e).saved == s.saved
  {
    AnswersOnly(s, e);
  }

  lemma AnswerBarred(s: State, e: Event)
    requires Sound(s) && !Savable(s) && e.Answer? && !e.ask.Remove?
    ensures !Savable(OtherStep(s, e)) && OtherStep(s, e).saved == s.saved
  {
    AnswersOnly(s, e);
    AnswerBrings(s, e);
  }

  /** The answer brings nothing that was not to come. */
  lemma AnswerBrings(s: State, e: Event)
    requires e.Answer? && !e.ask.Remove?
    ensures var t := OtherStep(s, e);
            && Pc(t) == Pc(s) && (t.row.status == s.row.status || t.row.status == Error)
            && (WorkerComes(t) ==> WorkerComes(s)) && (UrlComes(t) ==> UrlComes(s))
            && (HasWorker(t) ==> HasWorker(s)) && (HasUrl(t) ==> HasUrl(s))
            && (UrlOutlives(t) ==> UrlOutlives(s))
  {
    AnswersOnly(s, e);
  }

  lemma RecoveryBarred(s: State, e: Event)
    requires Sound(s) && !Savable(s) && !e.Request? && !e.Answer?
    ensures !Savable(OtherStep(s, e)) && OtherStep(s, e).saved == s.saved
  {
  }

  lemma OthersBarred(s: State, e: Event)
    requires Sound(s) && !Savable(s)
    ensures !Savable(OtherStep(s, e)) && OtherStep(s, e).saved == s.saved
  {
    if e.Request? {
      RequestBarred(s, e);
    } else if e.Answer? && e.ask.Remove? {
      RemovalBarred(s, e);
    } else if e.Answer? {
      AnswerBarred(s, e);
    } else {
      RecoveryBarred(s, e);
    }
  }

  lemma NextBarred(s: State, e: Event)
    requires Sound(s) && !Savable(s)
    ensures !Savable(Next(s, e)) && Next(s, e).saved == s.saved
  {
    if OfTick(e) {
      TickBarred(s, e);
    } else if OfThread(e) {
      ThreadBarred(s, e);
    } else if OfPersist(e) {
      if s.lock.Some? { PersistBarred(s, e); }
    } else {
      OthersBarred(s, e);
    }
  }

  lemma {:induction false} RunBarred(s: State, events: seq<Event>)
    requires Sound(s) && !Savable(s)
    ensures !Savable(Run(s, events)) && Run(s, events).saved == s.saved
    decreases |events|
  {
    if events != [] {
      RunBarred(s, events[..|events| - 1]);
      RunKeepsSound(s, events[..|events| - 1]);
      NextBarred(Run(s, events[..|events| - 1]), events[|events| - 1]);
    }
  }

  // ------------------------------------------------------------------ and how one comes

  /** What can save after a step can save before it. */
  lemma Earlier(s: State, e: Event)
    requires CanSave(Next(s, e)) && |Next(s, e).saved| >= |s.saved|
    ensures CanSave(s)
  {
    var rest: seq<Event> :| |Run(Next(s, e), rest).saved| > |Next(s, e).saved|;
    RunOne(s, e);
    RunOn(s, [e], rest);
    assert |Run(s, [e] + rest).saved| > |s.saved|;
  }

  lemma SavingSaves(s: State)
    requires HeldAt(s, Saving)
    ensures CanSave(s)
  {
    var e := PersistCommit(false);
    RunOne(s, e);
    assert |Run(s, [e]).saved| > |s.saved|;
  }

  function WithoutAudio(s: State): State {
    s.(row := s.row.(audio := None))
  }

  lemma AudioCanGo(s: State)
    requires CanSave(WithoutAudio(s))
    ensures CanSave(s)
  {
    Earlier(s, DeleteAudio);
  }

  /** A file that fits what was reported. */
  function Fitting(poll: Poll): nat {
    if poll.artifact.Artifact? && poll.artifact.size.Some? && poll.artifact.size.value > 0
    then poll.artifact.size.value else MIN_CAPTURE_ARTIFACT_BYTES
  }

  lemma DownloadingSaves(s: State)
    requires Sound(s) && HeldAt(s, Downloading) && s.row.status == Running
    ensures CanSave(s)
  {
    var t, e := WithoutAudio(s), PersistDownloaded(Fitting(s.lock.value.poll), true);
    SavingSaves(Next(t, e));
    Earlier(t, e);
    AudioCanGo(s);
  }

  lemma NotingSaves(s: State)
    requires Sound(s) && HeldAt(s, Noting) && s.row.status == Running
    ensures CanSave(s)
  {
    NextKeepsSound(s, PersistNote);
    DownloadingSaves(Next(s, PersistNote));
    Earlier(s, PersistNote);
  }

  lemma EnteredSaves(s: State)
    requires Sound(s) && HeldAt(s, Entered) && s.row.status == Running && s.row.url
    ensures CanSave(s)
  {
    NextKeepsSound(s, DeleteAudio);
    var t := WithoutAudio(s);
    NextKeepsSound(t, PersistRefresh);
    NotingSaves(Next(t, PersistRefresh));
    Earlier(t, PersistRefresh);
    AudioCanGo(s);
  }

  lemma HeldSaves(s: State)
    requires Sound(s) && s.lock.Some? && s.row.status == Running && s.row.url
    ensures CanSave(s)
  {
    match s.lock.value.stage
    case Entered => EnteredSaves(s);
    case Noting => NotingSaves(s);
    case Downloading => DownloadingSaves(s);
    case Saving => SavingSaves(s);
  }

  /** The report of a worker that is done. */
  function Done(): Poll {
    Poll("success", NoArtifact)
  }

  lemma BusySaves(s: State, id: nat)
    requires Sound(s) && IsBusy(s, id) && s.row.status == Running && s.row.url
    ensures CanSave(s)
  {
    if s.lock.Some? {
      HeldSaves(s);
    } else {
      var e := ThreadPersist(id, Done());
      NextKeepsSound(s, e);
      HeldSaves(Next(s, e));
      Earlier(s, e);
    }
  }

  lemma ReadSaves(s: State, id: nat)
    requires Sound(s) && id in s.threads && s.threads[id].Read? && s.threads[id].seen.url && s.row.status == Running
    ensures CanSave(s)
  {
    var e := ThreadBind(id, true, true);
    NextKeepsSound(s, e);
    BusySaves(Next(s, e), id);
    Earlier(s, e);
  }

  lemma BeginSaves(s: State, id: nat)
    requires Sound(s) && At(s, id, Begin) && s.row.status == Running && s.row.url
    ensures CanSave(s)
  {
    NextKeepsSound(s, DeleteAudio);
    var t, e := WithoutAudio(s), ThreadRead(id);
    NextKeepsSound(t, e);
    ReadSaves(Next(t, e), id);
    Earlier(t, e);
    AudioCanGo(s);
  }

  /** A tick that starts the task starts a thread that can save. */
  lemma StartingSaves(s: State)
    requires Sound(s) && TickAt(s, Starting) && s.dispatcher.seen.worker
    requires s.dispatcher.seen.status == Queued || s.row.status == Running
    requires s.row.url || (s.dispatcher.seen.status == Queued && s.dispatcher.seen.url)
    ensures CanSave(s)
  {
    var e := TickSpawn(!s.row.url);
    NextKeepsSound(s, e);
    BeginSaves(Next(s, e), s.nextThread);
    Earlier(s, e);
  }

  lemma ThreadCanGo(s: State)
    requires Sound(s) && Alive(s) && CanSave(Emptied(s))
    ensures CanSave(s)
  {
    ThreadGoes(s);
    var first: seq<Event> :| Run(s, first) == Emptied(s);
    var rest: seq<Event> :| |Run(Emptied(s), rest).saved| > |s.saved|;
    RunOn(s, first, rest);
    assert |Run(s, first + rest).saved| > |s.saved|;
  }

  lemma CheckedSaves(s: State)
    requires Sound(s) && TickAt(s, AtStart) && s.threads == map[]
    requires TickActsOn(s, Queued) || (TickActsOn(s, Running) && s.row.status == Running)
    requires s.row.url || (s.dispatcher.seen.status == Queued && s.dispatcher.seen.url)
    ensures CanSave(s)
  {
    NextKeepsSound(s, TickCheck);
    StartingSaves(Next(s, TickCheck));
    Earlier(s, TickCheck);
  }

  lemma AtStartSaves(s: State)
    requires Sound(s) && TickAt(s, AtStart)
    requires TickActsOn(s, Queued) || (TickActsOn(s, Running) && s.row.status == Running)
    requires s.row.url || (s.dispatcher.seen.status == Queued && s.dispatcher.seen.url)
    ensures CanSave(s)
  {
    if Alive(s) {
      CheckedSaves(Emptied(s));
      ThreadCanGo(s);
    } else {
      CheckedSaves(s);
    }
  }

  /** A tick at any point, with what it read of the task. */
  lemma TickSaves(s: State)
    requires Sound(s) && (TickActsOn(s, Queued) || (TickActsOn(s, Running) && s.row.status == Running))
    requires s.row.url || (s.dispatcher.seen.status == Queued && s.dispatcher.seen.url)
    ensures CanSave(s)
  {
    match s.dispatcher.pc
    case AtFinish =>
      NextKeepsSound(s, TickSkip);
      AtStartSaves(Next(s, TickSkip));
      Earlier(s, TickSkip);
    case AtStart => AtStartSaves(s);
    case Starting => StartingSaves(s);
    case InPersist =>
  }

  /** An open task with a worker and its address. */
  lemma IdleSaves(s: State)
    requires Sound(s) && s.dispatcher.Idle? && Open(s.row) && s.row.worker && s.row.url
    ensures CanSave(s)
  {
    NextKeepsSound(s, DeleteAudio);
    var t := WithoutAudio(s);
    NextKeepsSound(t, TickBegin);
    TickSaves(Next(t, TickBegin));
    Earlier(t, TickBegin);
    AudioCanGo(s);
  }

  lemma OpenSaves(s: State)
    requires Sound(s) && Open(s.row) && s.row.worker && s.row.url
    ensures CanSave(s)
  {
    if s.dispatcher.Idle? {
      IdleSaves(s);
    } else {
      var e := if s.dispatcher.Ticking? then TickAbort else RecoverKeep(false);
      NextKeepsSound(s, e);
      IdleSaves(Next(s, e));
      Earlier(s, e);
    }
  }

  /** Whoever may write the address back can do so now, and nothing else is lost by it. */
  function UrlEvent(s: State): Event {
    if Stop(true) in s.asks then Answer(Stop(true))
    else if Pc(s).Busy? && Pc(s).url then ThreadNote(s.registered.value)
    else if BindsWithUrl(s) then ThreadBind(s.registered.value, true, true)
    else if HeldAt(s, Noting) then PersistNote
    else if s.dispatcher.Recovering? then RecoverKeep(true)
    else TickNote
  }

  ghost predicate Onwards(s: State, t: State) {
    && t.saved == s.saved && t.row.url && t.row.status == s.row.status
    && (HasWorker(s) ==> HasWorker(t)) && (AtWork(s) ==> AtWork(t)) && (s.lock.Some? ==> t.lock.Some?)
    && (TickActsOn(s, Running) ==> TickActsOn(t, Running)) && (TickActsOn(s, Queued) ==> TickActsOn(t, Queued))
  }

  lemma ThreadBrings(s: State)
    requires Sound(s) && Stop(true) !in s.asks && ((Pc(s).Busy? && Pc(s).url) || BindsWithUrl(s))
    ensures Onwards(s, Next(s, UrlEvent(s)))
  {
  }

  lemma StopBrings(s: State)
    requires Sound(s) && Stop(true) in s.asks
    ensures Onwards(s, Next(s, UrlEvent(s)))
  {
    AnswersOnly(s, Answer(Stop(true)));
  }

  lemma OthersBring(s: State)
    requires Sound(s) && UrlComes(s) && Stop(true) !in s.asks && !((Pc(s).Busy? && Pc(s).url) || BindsWithUrl(s))
    ensures Onwards(s, Next(s, UrlEvent(s)))
  {
  }

  lemma UrlArrives(s: State)
    requires Sound(s) && UrlComes(s)
    ensures Sound(Next(s, UrlEvent(s))) && Onwards(s, Next(s, UrlEvent(s)))
  {
    NextKeepsSound(s, UrlEvent(s));
    if Stop(true) in s.asks {
      StopBrings(s);
    } else if (Pc(s).Busy? && Pc(s).url) || BindsWithUrl(s) {
      ThreadBrings(s);
    } else {
      OthersBring(s);
    }
  }

  /** And whoever may name a worker. */
  lemma WorkerArrives(s: State)
    requires Sound(s) && WorkerComes(s) && Open(s.row) && s.row.url
    ensures CanSave(s)
  {
    var e := if Move in s.asks then Answer(Move) else ThreadBind(s.registered.value, true, true);
    NextKeepsSound(s, e);
    OpenSaves(Next(s, e));
    Earlier(s, e);
  }

  lemma WithUrlSaves(s: State)
    requires Sound(s) && s.row.status == Running && s.row.url
    requires HasWorker(s) || AtWork(s) || s.lock.Some? || TickActsOn(s, Running)
    ensures CanSave(s)
  {
    if s.lock.Some? {
      HeldSaves(s);
    } else if Pc(s).Begin? {
      BeginSaves(s, s.registered.value);
    } else if Pc(s).Busy? {
      BusySaves(s, s.registered.value);
    } else if TickActsOn(s, Running) {
      TickSaves(s);
    } else if s.row.worker {
      OpenSaves(s);
    } else {
      WorkerArrives(s);
    }
  }

  lemma FinishSaves(s: State)
    requires Sound(s) && CanFinish(s)
    ensures CanSave(s)
  {
    if HeldAt(s, Noting) {
      NotingSaves(s);
    } else if HeldAt(s, Downloading) {
      DownloadingSaves(s);
    } else if s.row.url {
      WithUrlSaves(s);
    } else {
      UrlArrives(s);
      WithUrlSaves(Next(s, UrlEvent(s)));
      Earlier(s, UrlEvent(s));
    }
  }

  lemma TickStartSaves(s: State)
    requires Sound(s) && TickActsOn(s, Queued) && (HasUrl(s) || s.dispatcher.seen.url || FailsWithUrl(s))
    ensures CanSave(s)
  {
    if s.row.url || s.dispatcher.seen.url {
      TickSaves(s);
    } else {
      var e := if UrlComes(s) then UrlEvent(s) else PersistFail;
      if UrlComes(s) {
        UrlArrives(s);
      }
      NextKeepsSound(s, e);
      TickSaves(Next(s, e));
      Earlier(s, e);
    }
  }

  /** A waiting task whose address comes back only with the failure of the thread that persists. */
  lemma ReadThenFailed(s: State)
    requires Sound(s) && s.row.status == Queued && s.row.worker && FailsWithUrl(s) && s.dispatcher.Idle?
    ensures CanSave(s)
  {
    NextKeepsSound(s, DeleteAudio);
    var t := WithoutAudio(s);
    NextKeepsSound(t, TickBegin);
    TickStartSaves(Next(t, TickBegin));
    Earlier(t, TickBegin);
    AudioCanGo(s);
  }

  lemma AbortThenFailed(s: State)
    requires Sound(s) && s.row.status == Queued && s.row.worker && FailsWithUrl(s)
    ensures CanSave(s)
  {
    if s.dispatcher.Idle? {
      ReadThenFailed(s);
    } else {
      var e := if s.dispatcher.Ticking? then TickAbort else RecoverKeep(false);
      NextKeepsSound(s, e);
      ReadThenFailed(Next(s, e));
      Earlier(s, e);
    }
  }

  lemma UrlThenStart(s: State)
    requires Sound(s) && s.row.status == Queued && HasWorker(s) && UrlComes(s)
    ensures CanSave(s)
  {
    UrlArrives(s);
    var t := Next(s, UrlEvent(s));
    if t.row.worker {
      OpenSaves(t);
    } else {
      WorkerArrives(t);
    }
    Earlier(s, UrlEvent(s));
  }

  lemma StartSaves(s: State)
    requires Sound(s) && s.row.status == Queued && HasWorker(s) && (HasUrl(s) || FailsWithUrl(s))
    ensures CanSave(s)
  {
    if s.row.url {
      if s.row.worker { OpenSaves(s); } else { WorkerArrives(s); }
    } else if UrlComes(s) {
      UrlThenStart(s);
    } else if s.row.worker {
      AbortThenFailed(s);
    } else {
      NextKeepsSound(s, Answer(Move));
      AbortThenFailed(Next(s, Answer(Move)));
      Earlier(s, Answer(Move));
    }
  }

  /** The removal of the node is written, and then the address and a worker. */
  lemma RemovedSaves(s: State)
    requires Sound(s) && Remove(true) in s.asks && WorkerComes(s) && (UrlComes(s) || FailsWithUrl(s))
    ensures CanSave(s)
  {
    NextKeepsSound(s, Answer(Remove(true)));
    StartSaves(Next(s, Answer(Remove(true))));
    Earlier(s, Answer(Remove(true)));
  }

  lemma PolledSaves(s: State)
    requires Sound(s) && Remove(true) in s.asks && WorkerComes(s) && Pc(s).Busy? && s.row.url
    ensures CanSave(s)
  {
    var e := ThreadPoll(s.registered.value);
    NextKeepsSound(s, e);
    RemovedSaves(Next(s, e));
    Earlier(s, e);
  }

  lemma OutlivedSaves(s: State)
    requires Sound(s) && Remove(true) in s.asks && WorkerComes(s) && UrlOutlives(s)
    ensures CanSave(s)
  {
    if UrlComes(s) || FailsWithUrl(s) {
      RemovedSaves(s);
    } else if s.row.url {
      PolledSaves(s);
    } else {
      NextKeepsSound(s, PersistFail);
      PolledSaves(Next(s, PersistFail));
      Earlier(s, PersistFail);
    }
  }

  lemma ReturnSaves(s: State)
    requires Sound(s) && Remove(true) in s.asks && UrlOutlives(s)
    requires WorkerComes(s) || (s.row.status == Queued && s.row.worker)
    ensures CanSave(s)
  {
    if WorkerComes(s) {
      OutlivedSaves(s);
    } else {
      NextKeepsSound(s, Request(Move));
      OutlivedSaves(Next(s, Request(Move)));
      Earlier(s, Request(Move));
    }
  }

  lemma SavableSaves(s: State)
    requires Sound(s) && Savable(s)
    ensures CanSave(s)
  {
    if HeldAt(s, Saving) {
      SavingSaves(s);
    } else if CanFinish(s) {
      FinishSaves(s);
    } else if s.row.status == Queued && HasWorker(s) && (HasUrl(s) || FailsWithUrl(s)) {
      StartSaves(s);
    } else if TickActsOn(s, Queued) && (HasUrl(s) || s.dispatcher.seen.url || FailsWithUrl(s)) {
      TickStartSaves(s);
    } else {
      ReturnSaves(s);
    }
  }

  /**
    After every run: some continuation commits an Audio row, be it the first or another one, if and only
    if the state is savable.
   */
  lemma AnotherAudioIff(events: seq<Event>)
    ensures CanSave(Run(NewTask(), events)) <==> Savable(Run(NewTask(), events))
  {
    var s := Run(NewTask(), events);
    RunKeepsSound(NewTask(), events);
    if Savable(s) {
      SavableSaves(s);
    } else {
      forall more ensures Run(s, more).saved == s.saved {
        RunBarred(s, more);
      }
    }
  }
}
