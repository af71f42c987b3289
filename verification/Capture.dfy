/**
  One capture task and everybody who may finish it: background threads, dispatcher ticks, recovery
  after a restart, and requests. A step is what happens between two points where another may act.
 */
module Capture {
  import opened Prelude

  // ------------------------------------------------------------------ is there an artifact to fetch

  const MIN_CAPTURE_ARTIFACT_BYTES := 512

  /** The artifact of a worker's status report; absent fields are None. */
  datatype Artifact = NoArtifact | Artifact(ready: Option<bool>, size: Option<int>)

  datatype Poll = Poll(status: string, artifact: Artifact)

  predicate ArtifactReady(poll: Poll) {
    var a := poll.artifact;
    if a.Artifact? && a.ready == Some(false) then false
    else if a.Artifact? && TooSmall(a.size) then false
    else if a.Artifact? && a.ready == Some(true) then poll.status in {"success", "finalizing", "canceled"}
    else poll.status == "success"
  }

  predicate TooSmall(size: Option<int>) {
    size.Some? && 0 < size.value < MIN_CAPTURE_ARTIFACT_BYTES
  }

  /** The downloaded file is large enough and of the size that the worker reported, if it did. */
  predicate SizeFits(poll: Poll, bytes: nat) {
    && bytes >= MIN_CAPTURE_ARTIFACT_BYTES
    && (poll.artifact.Artifact? && poll.artifact.size.Some? && poll.artifact.size.value > 0 ==>
          bytes == poll.artifact.size.value)
  }

  // ------------------------------------------------------------------ the machine

  datatype Status = Queued | Running | Success | Error

  /**
    The committed row of the task: `worker` and `job` say whether a worker node and a job on it are
    named, `url` whether the task's metadata still holds the address of the meeting.
   */
  datatype Row = Row(status: Status, audio: Option<nat>, worker: bool, job: bool, url: bool)

  /**
    A thread has read the row before it binds a worker, and holds the metadata it last read while busy.
    `Raised` is one whose exception has been caught and whose failure is yet to be written.
   */
  datatype ThreadPc = Begin | Read(seen: Row) | Busy(url: bool) | Persisting | Raised | Leaving

  datatype TickPc = AtFinish | InPersist | AtStart | Starting

  /**
    Who holds the tick lock, with the row as its session last read it. After a start the dispatcher
    task takes the lock for recovery before the server listens, so before any tick and any request.
   */
  datatype Dispatcher = Booting | Idle | Ticking(seen: Row, pc: TickPc) | Recovering(seen: Row)

  datatype Who = Tick | Thread(id: nat)

  datatype Stage = Entered | Noting | Downloading | Saving

  /** The holder of the task's persist lock, how far it has come, what it persists, and its metadata. */
  datatype Hold = Hold(who: Who, stage: Stage, poll: Poll, bytes: nat, url: bool)

  /** An Audio row, by the report it was fetched on and the size of the file. */
  datatype Saved = Saved(poll: Poll, bytes: nat)

  /**
    A request that has read the row and not yet written it: a cancel; a stop, with the metadata it read;
    the removal of the task's node, or its remediation while the task runs; and a remediation of a
    waiting task, which names another node.
   */
  datatype Ask = Cancel | Stop(url: bool) | Remove(running: bool) | Move

  /**
    `threads` are those inside their body, up to the moment they deregister; `registered` is the entry
    of the thread dictionary. `saved` lists the Audio rows and `chained` counts the follow-up tasks ever
    committed.
   */
  datatype State = State(row: Row, threads: map<nat, ThreadPc>, registered: Option<nat>, nextThread: nat,
                         lock: Option<Hold>, dispatcher: Dispatcher, asks: multiset<Ask>,
                         saved: seq<Saved>, chained: nat)

  datatype Event =
    | TickBegin
    | TickSkip
    | TickNote
    | TickPersist(poll: Poll)
    | TickCheck
    | TickNoCapacity
    | TickSpawn(note: bool)
    | TickAbort
    | ThreadRead(id: nat)
    | ThreadBind(id: nat, rebind: bool, note: bool)
    | ThreadPost(id: nat)
    | ThreadPoll(id: nat)
    | ThreadNote(id: nat)
    | ThreadRaise(id: nat)
    | ThreadFail(id: nat, unbound: bool)
    | ThreadGiveUp(id: nat)
    | ThreadPersist(id: nat, poll: Poll)
    | ThreadDeregister(id: nat)
    | ThreadDie(id: nat)
    | PersistRefresh
    | PersistNote
    | PersistDownloaded(bytes: nat, audio: bool)
    | PersistFail
    | PersistCommit(chain: bool)
    | Request(ask: Ask)
    | Answer(ask: Ask)
    | DeleteAudio
    | Restart
    | RecoverBegin
    | RecoverRequeue
    | RecoverFail
    | RecoverKeep(note: bool)

  function NewTask(): State {
    State(Row(Queued, None, true, false, true), map[], None, 0, None, Idle, multiset{}, [], 0)
  }

  predicate Open(row: Row) {
    row.status == Queued || row.status == Running
  }

  /** The check that persisting makes after each refresh. */
  predicate StillWanted(row: Row) {
    row.audio.None? && row.status == Running
  }

  predicate Alive(s: State) {
    s.registered.Some? && s.registered.value in s.threads
  }

  predicate At(s: State, id: nat, pc: ThreadPc) {
    id in s.threads && s.threads[id] == pc
  }

  predicate IsBusy(s: State, id: nat) {
    id in s.threads && s.threads[id].Busy?
  }

  predicate TickAt(s: State, pc: TickPc) {
    s.dispatcher.Ticking? && s.dispatcher.pc == pc
  }

  predicate HeldAt(s: State, stage: Stage) {
    s.lock.Some? && s.lock.value.stage == stage
  }

  /** A failure is written together with the metadata that its writer holds. */
  function Failed(s: State, url: bool): State {
    s.(row := s.row.(status := Error, url := url))
  }

  function WithPc(s: State, id: nat, pc: ThreadPc): State {
    s.(threads := s.threads[id := pc])
  }

  /** The holder leaves the persist lock, having last seen the row as it is now. */
  function Released(s: State): State
    requires s.lock.Some?
  {
    match s.lock.value.who
    case Tick => s.(lock := None, dispatcher := if s.dispatcher.Ticking? then Ticking(s.row, AtStart) else s.dispatcher)
    case Thread(id) => s.(lock := None, threads := s.threads[id := Leaving])
  }

  /** A worker may hold a result for the row. */
  predicate Finishable(row: Row) {
    StillWanted(row) && row.worker && row.job
  }

  /**
    A tick reads the open tasks, tries to finish, then tries to start. Without a worker in the row there
    is no capacity. Starting a waiting task writes its metadata back, if that changes them.
   */
  function TickStep(s: State, e: Event): State {
    match e
    case TickBegin => if s.dispatcher.Idle? && Open(s.row) then s.(dispatcher := Ticking(s.row, AtFinish)) else s
    case TickSkip => if TickAt(s, AtFinish) then s.(dispatcher := Ticking(s.dispatcher.seen, AtStart)) else s
    case TickNote =>
      if !TickAt(s, AtFinish) || !Finishable(s.dispatcher.seen) then s
      else s.(row := s.row.(url := s.dispatcher.seen.url), dispatcher := Ticking(s.dispatcher.seen, AtStart))
    case TickPersist(poll) =>
      if TickAt(s, AtFinish) && Finishable(s.dispatcher.seen) && s.lock.None?
         && poll.status == "success" && ArtifactReady(poll)
      then s.(dispatcher := Ticking(s.dispatcher.seen, InPersist),
              lock := Some(Hold(Tick, Entered, poll, 0, s.dispatcher.seen.url)))
      else s
    case TickCheck =>
      if !TickAt(s, AtStart) then s
      else if !Open(s.dispatcher.seen) || s.dispatcher.seen.audio.Some? || Alive(s) then s.(dispatcher := Idle)
      else s.(dispatcher := Ticking(s.dispatcher.seen, Starting), registered := None)
    case TickNoCapacity =>
      if TickAt(s, Starting) then Failed(s, s.dispatcher.seen.url).(dispatcher := Idle) else s
    case TickSpawn(note) =>
      if !TickAt(s, Starting) || !s.dispatcher.seen.worker then s
      else
        s.(row := SpawnedRow(s.row, s.dispatcher.seen, note),
           dispatcher := Idle, threads := s.threads[s.nextThread := Begin],
           registered := Some(s.nextThread), nextThread := s.nextThread + 1)
    case TickAbort =>
      if !s.dispatcher.Ticking? then s
      else s.(dispatcher := Idle, lock := if s.lock.Some? && s.lock.value.who == Tick then None else s.lock)
    case _ => s
  }

  function SpawnedRow(row: Row, seen: Row, note: bool): Row {
    if seen.status == Queued then row.(status := Running, url := if note then seen.url else row.url) else row
  }

  /**
    A thread reads the row, binds a worker, works, perhaps persists, and deregisters whoever is
    registered. Binding another worker writes the node and the metadata and drops the job.
   */
  function ThreadStep(s: State, e: Event): State {
    match e
    case ThreadRead(id) =>
      if At(s, id, Begin) then WithPc(s, id, if StillWanted(s.row) then Read(s.row) else Leaving) else s
    case ThreadBind(id, rebind, note) =>
      if id in s.threads && s.threads[id].Read? then Bound(s, id, s.threads[id].seen, rebind, note) else s
    case ThreadPost(id) => if IsBusy(s, id) then s.(row := s.row.(job := true)) else s
    case ThreadPoll(id) => if IsBusy(s, id) then WithPc(s, id, Busy(s.row.url)) else s
    case ThreadNote(id) => if IsBusy(s, id) then s.(row := s.row.(url := s.threads[id].url)) else s
    case ThreadRaise(id) =>
      if id !in s.threads || s.threads[id] == Leaving then s
      else s.(threads := s.threads[id := Raised],
              lock := if s.lock.Some? && s.lock.value.who == Thread(id) then None else s.lock)
    case ThreadFail(id, unbound) =>
      if id in s.threads then FailedThread(s, id, s.threads[id], unbound) else s
    case ThreadGiveUp(id) => if IsBusy(s, id) || At(s, id, Raised) then WithPc(s, id, Leaving) else s
    case ThreadPersist(id, poll) =>
      if IsBusy(s, id) && s.lock.None? && ArtifactReady(poll)
      then WithPc(s, id, Persisting).(lock := Some(Hold(Thread(id), Entered, poll, 0, s.threads[id].url))) else s
    case ThreadDeregister(id) =>
      if At(s, id, Leaving) then s.(threads := s.threads - {id}, registered := None) else s
    case ThreadDie(id) => if At(s, id, Leaving) then s.(threads := s.threads - {id}) else s
    case _ => s
  }

  /** A thread that was binding may also have let go of the worker it read. */
  function FailedThread(s: State, id: nat, pc: ThreadPc, unbound: bool): State {
    match pc
    case Read(seen) =>
      var f := Failed(s, seen.url);
      WithPc(f.(row := f.row.(worker := f.row.worker && !unbound)), id, Leaving)
    case Busy(url) => WithPc(Failed(s, url), id, Leaving)
    case Raised => WithPc(Failed(s, s.row.url), id, Leaving)
    case _ => s
  }

  /** A thread without the address of the meeting fails; one without a worker has to bind one. */
  function Bound(s: State, id: nat, seen: Row, rebind: bool, note: bool): State {
    if !seen.url then WithPc(Failed(s, false), id, Leaving)
    else if !rebind && !seen.worker then s
    else
      WithPc(s.(row := s.row.(worker := s.row.worker || rebind, job := s.row.job && !(rebind && seen.job),
                              url := s.row.url || rebind || note)), id, Busy(true))
  }

  /**
    Under the persist lock: refresh, note the stage, download, refresh again, save the file, commit. A
    failure is written only after the first refresh has found the task still wanted.
   */
  function PersistStep(s: State, e: Event): State
    requires s.lock.Some?
  {
    var hold := s.lock.value;
    match e
    case PersistRefresh =>
      if hold.stage != Entered then s
      else if !StillWanted(s.row) then Released(s)
      else if !s.row.url then Released(Failed(s, false))
      else s.(lock := Some(hold.(stage := Noting, url := true)))
    case PersistNote =>
      if hold.stage != Noting then s
      else s.(row := s.row.(url := hold.url), lock := Some(hold.(stage := Downloading)))
    case PersistDownloaded(bytes, audio) =>
      if hold.stage != Downloading then s
      else if !audio || !SizeFits(hold.poll, bytes) then Released(Failed(s, hold.url))
      else if !StillWanted(s.row) then Released(s)
      else s.(lock := Some(hold.(stage := Saving, bytes := bytes, url := s.row.url)))
    case PersistFail =>
      if hold.stage == Downloading || hold.stage == Saving then Released(Failed(s, hold.url)) else s
    case PersistCommit(chain) =>
      if hold.stage != Saving then s
      else Released(Committed(s, chain))
    case _ => s
  }

  /** One commit: the Audio row, the task, and the follow-up. */
  function Committed(s: State, chain: bool): State
    requires s.lock.Some?
  {
    s.(row := s.row.(status := Success, audio := Some(|s.saved|), url := true),
       saved := s.saved + [Saved(s.lock.value.poll, s.lock.value.bytes)],
       chained := s.chained + (if chain then 1 else 0))
  }

  predicate OfTick(e: Event) {
    || e.TickBegin? || e.TickSkip? || e.TickNote? || e.TickPersist? || e.TickCheck?
    || e.TickNoCapacity? || e.TickSpawn? || e.TickAbort?
  }

  predicate OfThread(e: Event) {
    || e.ThreadRead? || e.ThreadBind? || e.ThreadPost? || e.ThreadPoll? || e.ThreadNote? || e.ThreadRaise?
    || e.ThreadFail? || e.ThreadGiveUp? || e.ThreadPersist? || e.ThreadDeregister? || e.ThreadDie?
  }

  predicate OfPersist(e: Event) {
    e.PersistRefresh? || e.PersistNote? || e.PersistDownloaded? || e.PersistFail? || e.PersistCommit?
  }

  /** What a request must have read to be let through. */
  predicate Allowed(row: Row, ask: Ask) {
    match ask
    case Cancel => Open(row)
    case Stop(url) => row.status == Running && url == row.url
    case Remove(running) => Open(row) && row.worker && (running <==> row.status == Running)
    case Move => row.status == Queued && row.worker
  }

  /** What it writes: only columns that differ from what it read. */
  function Answered(row: Row, ask: Ask): Row {
    match ask
    case Cancel => row.(status := Error)
    case Stop(url) => row.(url := url)
    case Remove(running) =>
      row.(status := if running then Queued else row.status, worker := false, job := false, url := false)
    case Move => row.(worker := true)
  }

  /** Requests, restarts, and recovery, which holds the tick lock from the start on. */
  function OtherStep(s: State, e: Event): State {
    match e
    case Request(ask) =>
      if !s.dispatcher.Booting? && Allowed(s.row, ask) then s.(asks := s.asks + multiset{ask}) else s
    case Answer(ask) =>
      if ask in s.asks then s.(row := Answered(s.row, ask), asks := s.asks - multiset{ask}) else s
    case DeleteAudio => s.(row := s.row.(audio := None))
    case Restart => s.(threads := map[], registered := None, lock := None, dispatcher := Booting, asks := multiset{})
    case RecoverBegin =>
      if !s.dispatcher.Booting? then s
      else s.(dispatcher := if s.row.status == Running then Recovering(s.row) else Idle)
    case RecoverRequeue =>
      if !s.dispatcher.Recovering? then s
      else s.(row := s.row.(status := Queued, worker := false, job := false, url := s.dispatcher.seen.url),
              dispatcher := Idle)
    case RecoverFail =>
      if s.dispatcher.Recovering? then Failed(s, s.dispatcher.seen.url).(dispatcher := Idle) else s
    case RecoverKeep(note) =>
      if s.dispatcher.Booting? then s.(dispatcher := Idle)
      else if !s.dispatcher.Recovering? then s
      else s.(row := if note then s.row.(url := s.dispatcher.seen.url) else s.row, dispatcher := Idle)
    case _ => s
  }

  function Next(s: State, e: Event): State {
    if OfTick(e) then TickStep(s, e)
    else if OfThread(e) then ThreadStep(s, e)
    else if OfPersist(e) then (if s.lock.Some? then PersistStep(s, e) else s)
    else OtherStep(s, e)
  }

  function Run(s: State, events: seq<Event>): State
    decreases |events|
  {
    if events == [] then s else Next(Run(s, events[..|events| - 1]), events[|events| - 1])
  }

  // ------------------------------------------------------------------ what every run keeps

  /** A thread in its body is the registered one, so there is at most one; none outlives a restart. */
  ghost predicate ThreadsSound(s: State) {
    && (forall id :: id in s.threads ==> s.registered == Some(id) && id < s.nextThread)
    && (TickAt(s, Starting) ==>
          s.threads == map[] && Open(s.dispatcher.seen) && s.dispatcher.seen.audio.None?)
    && (s.dispatcher.Booting? || s.dispatcher.Recovering? ==> s.threads == map[])
  }

  /** The persist lock and its holder agree on who is inside. */
  ghost predicate LockSound(s: State) {
    && (TickAt(s, InPersist) <==> s.lock.Some? && s.lock.value.who == Tick)
    && (forall id :: id in s.threads && s.threads[id] == Persisting ==>
          s.lock.Some? && s.lock.value.who == Thread(id))
    && (s.lock.Some? && s.lock.value.who.Thread? ==> At(s, s.lock.value.who.id, Persisting))
    && (s.lock.Some? && s.lock.value.stage != Entered ==> s.row.status != Success)
    && (HeldAt(s, Noting) || HeldAt(s, Downloading) ==> s.lock.value.url)
  }

  /** What is persisted was reported ready, and what was saved is of the right size. */
  ghost predicate ArtifactsSound(s: State) {
    && (s.lock.Some? ==> ArtifactReady(s.lock.value.poll))
    && (s.lock.Some? && s.lock.value.stage == Saving ==> SizeFits(s.lock.value.poll, s.lock.value.bytes))
    && (forall a :: a in s.saved ==> ArtifactReady(a.poll) && SizeFits(a.poll, a.bytes))
  }

  /** Success and an Audio reference come of a saved Audio row; each has at most one follow-up. */
  ghost predicate SavedSound(s: State) {
    && s.chained <= |s.saved|
    && (s.row.audio.Some? || s.row.status == Success ==> s.saved != [])
  }

  /** No request outlives a restart, and recovery finds none that names another node. */
  ghost predicate AsksSound(s: State) {
    && (s.dispatcher.Booting? ==> s.asks == multiset{})
    && (s.dispatcher.Recovering? ==> Move !in s.asks && (s.row.status == Queued ==> !s.row.worker))
  }

  ghost predicate Sound(s: State) {
    ThreadsSound(s) && LockSound(s) && ArtifactsSound(s) && SavedSound(s) && AsksSound(s)
  }

  lemma TickKeepsLocks(s: State, e: Event)
    requires ThreadsSound(s) && LockSound(s)
    ensures ThreadsSound(TickStep(s, e)) && LockSound(TickStep(s, e))
  {
  }

  lemma TickKeepsSound(s: State, e: Event)
    requires Sound(s)
    ensures Sound(TickStep(s, e))
  {
    TickKeepsLocks(s, e);
  }

  predicate OfWork(e: Event) {
    e.ThreadPost? || e.ThreadPoll? || e.ThreadNote? || e.ThreadPersist?
  }

  lemma WorkKeepsLocks(s: State, e: Event)
    requires ThreadsSound(s) && LockSound(s) && OfWork(e)
    ensures ThreadsSound(ThreadStep(s, e)) && LockSound(ThreadStep(s, e))
  {
  }

  lemma FailingKeepsLocks(s: State, e: Event)
    requires ThreadsSound(s) && LockSound(s) && (e.ThreadFail? || e.ThreadBind?)
    ensures ThreadsSound(ThreadStep(s, e)) && LockSound(ThreadStep(s, e))
  {
  }

  lemma LeavingKeepsLocks(s: State, e: Event)
    requires ThreadsSound(s) && LockSound(s) && !OfWork(e) && !e.ThreadFail? && !e.ThreadBind?
    ensures ThreadsSound(ThreadStep(s, e)) && LockSound(ThreadStep(s, e))
  {
  }

  lemma ThreadKeepsLocks(s: State, e: Event)
    requires ThreadsSound(s) && LockSound(s)
    ensures ThreadsSound(ThreadStep(s, e)) && LockSound(ThreadStep(s, e))
  {
    if OfWork(e) {
      WorkKeepsLocks(s, e);
    } else if e.ThreadFail? || e.ThreadBind? {
      FailingKeepsLocks(s, e);
    } else {
      LeavingKeepsLocks(s, e);
    }
  }

  /** A thread's own steps leave all else as it is, and change the row's outcome only to a failure. */
  lemma ThreadOnlyFails(s: State, e: Event)
    ensures var t := ThreadStep(s, e);
            && t.dispatcher == s.dispatcher && t.asks == s.asks && t.saved == s.saved && t.chained == s.chained
            && t.row.audio == s.row.audio && (t.row.status == s.row.status || t.row.status == Error)
  {
  }

  /** It enters the persist lock only with a report of an artifact. */
  lemma ThreadEntersReady(s: State, e: Event)
    ensures var t := ThreadStep(s, e);
            || t.lock == s.lock || t.lock.None?
            || (t.lock.value.stage == Entered && e.ThreadPersist?
                && t.lock.value.poll == e.poll && ArtifactReady(e.poll))
  {
  }

  lemma ThreadKeepsArtifacts(s: State, e: Event)
    requires ArtifactsSound(s)
    ensures ArtifactsSound(ThreadStep(s, e))
  {
    ThreadOnlyFails(s, e);
    ThreadEntersReady(s, e);
  }

  lemma ThreadKeepsAsks(s: State, e: Event)
    requires ThreadsSound(s) && AsksSound(s)
    ensures AsksSound(ThreadStep(s, e))
  {
    ThreadOnlyFails(s, e);
  }

  lemma ThreadKeepsSound(s: State, e: Event)
    requires Sound(s)
    ensures Sound(ThreadStep(s, e))
  {
    ThreadKeepsLocks(s, e);
    ThreadKeepsArtifacts(s, e);
    ThreadKeepsAsks(s, e);
    ThreadOnlyFails(s, e);
  }

  lemma PersistKeepsLocks(s: State, e: Event)
    requires ThreadsSound(s) && LockSound(s) && s.lock.Some?
    ensures ThreadsSound(PersistStep(s, e)) && LockSound(PersistStep(s, e))
  {
  }

  lemma PersistKeepsArtifacts(s: State, e: Event)
    requires ArtifactsSound(s) && s.lock.Some?
    ensures ArtifactsSound(PersistStep(s, e))
  {
  }

  lemma PersistKeepsSound(s: State, e: Event)
    requires Sound(s) && s.lock.Some?
    ensures Sound(PersistStep(s, e))
  {
    PersistKeepsArtifacts(s, e);
    PersistKeepsLocks(s, e);
  }

  /** What a request writes, and that nothing else changes. */
  lemma AnswersOnly(s: State, e: Event)
    requires e.Request? || e.Answer?
    ensures var t := OtherStep(s, e);
            && t.threads == s.threads && t.registered == s.registered && t.nextThread == s.nextThread
            && t.lock == s.lock && t.dispatcher == s.dispatcher && t.saved == s.saved && t.chained == s.chained
            && t.row.audio == s.row.audio && (t.row.status == Success ==> s.row.status == Success)
            && (forall a :: a in t.asks ==> a in s.asks || (e.Request? && a == e.ask))
  {
  }

  lemma OthersKeepLocks(s: State, e: Event)
    requires ThreadsSound(s) && LockSound(s)
    ensures ThreadsSound(OtherStep(s, e)) && LockSound(OtherStep(s, e))
  {
    if e.Request? || e.Answer? {
      AnswersOnly(s, e);
    }
  }

  lemma OthersKeepAsks(s: State, e: Event)
    requires AsksSound(s)
    ensures AsksSound(OtherStep(s, e))
  {
  }

  lemma OthersKeepSound(s: State, e: Event)
    requires Sound(s)
    ensures Sound(OtherStep(s, e))
  {
    OthersKeepAsks(s, e);
    if e.Request? || e.Answer? {
      AnswersOnly(s, e);
    }
    OthersKeepLocks(s, e);
  }

  lemma NextKeepsSound(s: State, e: Event)
    requires Sound(s)
    ensures Sound(Next(s, e))
  {
    if OfTick(e) {
      TickKeepsSound(s, e);
    } else if OfThread(e) {
      ThreadKeepsSound(s, e);
    } else if OfPersist(e) {
      if s.lock.Some? { PersistKeepsSound(s, e); }
    } else {
      OthersKeepSound(s, e);
    }
  }

  lemma {:induction false} RunKeepsSound(s: State, events: seq<Event>)
    requires Sound(s)
    ensures Sound(Run(s, events))
    decreases |events|
  {
    if events != [] {
      RunKeepsSound(s, events[..|events| - 1]);
      NextKeepsSound(Run(s, events[..|events| - 1]), events[|events| - 1]);
    }
  }

  // ------------------------------------------------------------------ continuations

  lemma RunMore(s: State, events: seq<Event>, e: Event)
    ensures Run(s, events + [e]) == Next(Run(s, events), e)
  {
    assert (events + [e])[..|events|] == events;
  }

  lemma RunOne(s: State, e: Event)
    ensures Run(s, [e]) == Next(s, e)
  {
    assert [e][..0] == [];
  }

  lemma {:induction false} RunOn(s: State, first: seq<Event>, rest: seq<Event>)
    ensures Run(s, first + rest) == Run(Run(s, first), rest)
    decreases |rest|
  {
    if rest == [] {
      assert first + rest == first;
    } else {
      RunOn(s, first, rest[..|rest| - 1]);
      assert (first + rest)[..|first + rest| - 1] == first + rest[..|rest| - 1];
    }
  }

  /** Some continuation leads from one state to the other. */
  ghost predicate Leads(s: State, t: State) {
    exists events: seq<Event> :: Run(s, events) == t
  }

  lemma LeadsOne(s: State, e: Event)
    ensures Leads(s, Next(s, e))
  {
    RunOne(s, e);
  }

  lemma LeadsOn(s: State, t: State, u: State)
    requires Leads(s, t) && Leads(t, u)
    ensures Leads(s, u)
  {
    var first: seq<Event> :| Run(s, first) == t;
    var rest: seq<Event> :| Run(t, rest) == u;
    RunOn(s, first, rest);
  }

  lemma LeadsMore(s: State, t: State, e: Event)
    requires Leads(s, t)
    ensures Leads(s, Next(t, e))
  {
    LeadsOne(t, e);
    LeadsOn(s, t, Next(t, e));
  }

  /** The thread in its body, wherever it is, can leave without a word. */
  function Emptied(s: State): State {
    s.(threads := map[], registered := None,
       lock := if s.lock.Some? && s.lock.value.who.Thread? then None else s.lock)
  }

  lemma LeavingGoes(s: State, id: nat)
    requires Sound(s) && At(s, id, Leaving)
    ensures Leads(s, Emptied(s))
  {
    assert s.threads - {id} == map[];
    assert Next(s, ThreadDeregister(id)) == Emptied(s);
    LeadsOne(s, ThreadDeregister(id));
  }

  lemma ThreadGoes(s: State)
    requires Sound(s) && Alive(s)
    ensures Leads(s, Emptied(s))
  {
    var id := s.registered.value;
    var raised := Next(s, ThreadRaise(id));
    NextKeepsSound(s, ThreadRaise(id));
    if s.threads[id] == Leaving {
      LeavingGoes(s, id);
    } else {
      var leaving := Next(raised, ThreadGiveUp(id));
      NextKeepsSound(raised, ThreadGiveUp(id));
      LeavingGoes(leaving, id);
      LeadsOne(raised, ThreadGiveUp(id));
      LeadsOne(s, ThreadRaise(id));
      LeadsOn(raised, leaving, Emptied(s));
      LeadsOn(s, raised, Emptied(s));
    }
  }

  // ------------------------------------------------------------------ one Audio row

  /**
    No open request has read the task as running on the node it removes. Once an Audio row was committed
    the task is then closed, and whoever could reopen it has seen none.
   */
  ghost predicate Undisturbed(s: State) {
    && Remove(true) !in s.asks
    && |s.saved| <= 1
    && (|s.saved| == 1 ==> !Open(s.row))
    && (s.lock.Some? && s.lock.value.stage != Entered ==> s.saved == [])
    && (s.dispatcher.Recovering? ==> s.saved == [] && s.row.status != Success)
    && (s.row.status == Queued ==> Unstarted(s) && (s.dispatcher.Ticking? ==> s.dispatcher.seen.status == Queued))
    && (s.dispatcher.Ticking? && s.dispatcher.seen.status == Queued ==> Unstarted(s))
  }

  /** Nobody is at work on the task. */
  ghost predicate Unstarted(s: State) {
    s.saved == [] && s.threads == map[] && s.lock.None?
  }

  lemma TickUndisturbed(s: State, e: Event)
    requires Sound(s) && Undisturbed(s)
    ensures Undisturbed(TickStep(s, e))
  {
  }

  lemma ThreadUndisturbed(s: State, e: Event)
    requires Sound(s) && Undisturbed(s)
    ensures Undisturbed(ThreadStep(s, e))
  {
  }

  lemma PersistUndisturbed(s: State, e: Event)
    requires Sound(s) && Undisturbed(s) && s.lock.Some?
    ensures Undisturbed(PersistStep(s, e))
  {
  }

  lemma OthersUndisturbed(s: State, e: Event)
    requires Sound(s) && Undisturbed(s) && e != Request(Remove(true))
    ensures Undisturbed(OtherStep(s, e))
  {
  }

  lemma NextUndisturbed(s: State, e: Event)
    requires Sound(s) && Undisturbed(s) && e != Request(Remove(true))
    ensures Undisturbed(Next(s, e))
  {
    if OfTick(e) {
      TickUndisturbed(s, e);
    } else if OfThread(e) {
      ThreadUndisturbed(s, e);
    } else if OfPersist(e) {
      if s.lock.Some? { PersistUndisturbed(s, e); }
    } else {
      OthersUndisturbed(s, e);
    }
  }

  lemma {:induction false} RunUndisturbed(s: State, events: seq<Event>)
    requires Sound(s) && Undisturbed(s) && Request(Remove(true)) !in events
    ensures Undisturbed(Run(s, events))
    decreases |events|
  {
    if events != [] {
      RunUndisturbed(s, events[..|events| - 1]);
      RunKeepsSound(s, events[..|events| - 1]);
      NextUndisturbed(Run(s, events[..|events| - 1]), events[|events| - 1]);
    }
  }

  /** In every interleaving: one thread at most is inside its body, and each Audio row has one follow-up at most. */
  lemma OneThread(events: seq<Event>)
    ensures var s := Run(NewTask(), events);
            && (forall i, j :: i in s.threads && j in s.threads ==> i == j)
            && s.chained <= |s.saved| && (s.row.audio.Some? || s.row.status == Success ==> s.saved != [])
  {
    RunKeepsSound(NewTask(), events);
  }

  /**
    In every interleaving in which no worker node is removed or remediated while the task runs on it,
    restarts and recovery included: one Audio row at most is ever committed, and a task that has had its
    Audio row is closed for good.
   */
  lemma AtMostOneAudio(events: seq<Event>)
    requires Request(Remove(true)) !in events
    ensures var s := Run(NewTask(), events);
            && |s.saved| <= 1 && s.chained <= |s.saved|
            && (|s.saved| == 1 ==> s.row.status == Success || s.row.status == Error)
  {
    RunKeepsSound(NewTask(), events);
    RunUndisturbed(NewTask(), events);
  }

  /**
    No run saves an artifact under the least size, one the worker declared unready, one of another
    size than it reported, or one it has neither finished nor vouched for.
   */
  lemma OnlyReadyArtifactsAreSaved(events: seq<Event>)
    ensures forall a :: a in Run(NewTask(), events).saved ==>
              && a.bytes >= MIN_CAPTURE_ARTIFACT_BYTES
              && (a.poll.artifact.Artifact? ==> a.poll.artifact.ready != Some(false))
              && (a.poll.artifact.Artifact? && a.poll.artifact.size.Some? && a.poll.artifact.size.value > 0 ==>
                    a.poll.artifact.size.value == a.bytes)
              && (a.poll.status != "success" ==>
                    a.poll.artifact.Artifact? && a.poll.artifact.ready == Some(true)
                    && a.poll.status in {"finalizing", "canceled"})
  {
    RunKeepsSound(NewTask(), events);
  }
}
