/** The capture runner, as methods that change the fields in the order the code changes them. */
module CaptureRunner {
  import opened Prelude
  import opened Capture

  /** The steps of one persist call that nobody interrupts; a worker or the storage may fail it. */
  function PersistedAlone(s: State, bytes: nat, audio: bool, stored: bool, chain: bool): State
    requires s.lock.Some?
  {
    var noted := Noted(PersistStep(s, PersistRefresh));
    if noted.lock.None? then noted else FetchedAlone(noted, bytes, audio, stored, chain)
  }

  /** The stage goes into the metadata as soon as the refresh has found the task still wanted. */
  function Noted(s: State): State {
    if s.lock.None? then s else PersistStep(s, PersistNote)
  }

  function FetchedAlone(s: State, bytes: nat, audio: bool, stored: bool, chain: bool): State
    requires s.lock.Some?
  {
    var fetched := PersistStep(s, PersistDownloaded(bytes, audio));
    if fetched.lock.None? then fetched
    else PersistStep(fetched, if stored then PersistCommit(chain) else PersistFail)
  }

  lemma FileRefused(s: State, bytes: nat, audio: bool, stored: bool, chain: bool)
    requires HeldAt(s, Downloading) && (!audio || !SizeFits(s.lock.value.poll, bytes))
    ensures FetchedAlone(s, bytes, audio, stored, chain) == PersistStep(s, PersistFail)
  {
  }

  function Fetched(s: State, bytes: nat): State
    requires s.lock.Some?
  {
    s.(lock := Some(s.lock.value.(stage := Saving, bytes := bytes, url := s.row.url)))
  }

  lemma FileTaken(s: State, bytes: nat, audio: bool, stored: bool, chain: bool)
    requires HeldAt(s, Downloading) && audio && SizeFits(s.lock.value.poll, bytes) && StillWanted(s.row)
    ensures FetchedAlone(s, bytes, audio, stored, chain)
            == PersistStep(Fetched(s, bytes), if stored then PersistCommit(chain) else PersistFail)
  {
  }

  /** The runner's fields for one task, changed in the order the code changes them. */
  class Runner {
    var row: Row
    var threads: map<nat, ThreadPc>
    var registered: Option<nat>
    var nextThread: nat
    var lock: Option<Hold>
    var dispatcher: Dispatcher
    var asks: multiset<Ask>
    var saved: seq<Saved>
    var chained: nat

    ghost function View(): State
      reads this
    {
      State(row, threads, registered, nextThread, lock, dispatcher, asks, saved, chained)
    }

    /** Nothing to do, a thread is alive, or the old entry of the thread dictionary goes. */
    method CheckStart() returns (due: bool)
      requires TickAt(View(), AtStart)
      modifies this`dispatcher, this`registered
      ensures View() == Next(old(View()), TickCheck)
      ensures due <==> TickAt(View(), Starting)
    {
      var seen := dispatcher.seen;
      dispatcher := Idle;
      if seen.status != Queued && seen.status != Running {
        return false;
      }
      if seen.audio.Some? {
        return false;
      }
      if registered.Some? && registered.value in threads {
        return false;
      }
      registered := None;
      dispatcher := Ticking(seen, Starting);
      due := true;
    }

    /** Under the start lock. Without a worker in the row there is no capacity. */
    method MaybeStartCapture(free: bool, note: bool)
      requires TickAt(View(), AtStart)
      modifies this
      ensures var starts := free && old(dispatcher).seen.worker;
              View() == Next(Next(old(View()), TickCheck), if starts then TickSpawn(note) else TickNoCapacity)
    {
      var due := CheckStart();
      if !due {
        return;
      }
      StartOrFail(free, note);
    }

    method StartOrFail(free: bool, note: bool)
      requires TickAt(View(), Starting)
      modifies this
      ensures var starts := free && old(dispatcher).seen.worker;
              View() == Next(old(View()), if starts then TickSpawn(note) else TickNoCapacity)
    {
      var seen := dispatcher.seen;
      dispatcher := Idle;
      if !seen.worker || !free {
        row := row.(status := Error, url := seen.url);
        return;
      }
      if seen.status == Queued {
        row := row.(status := Running, url := if note then seen.url else row.url);
      }
      registered := Some(nextThread);
      threads := threads[nextThread := Begin];
      nextThread := nextThread + 1;
    }

    method LeavePersist()
      requires lock.Some?
      modifies this`lock, this`threads, this`dispatcher
      ensures View() == Released(old(View()))
    {
      match lock.value.who {
        case Tick =>
          if dispatcher.Ticking? {
            dispatcher := Ticking(row, AtStart);
          }
        case Thread(id) => threads := threads[id := Leaving];
      }
      lock := None;
    }

    /** A failure is written with the metadata the session holds. */
    method FailAndLeave()
      requires lock.Some? && (lock.value.stage == Downloading || lock.value.stage == Saving)
      modifies this
      ensures View() == PersistStep(old(View()), PersistFail)
      ensures row.status == Error
    {
      row := row.(status := Error);
      row := row.(url := lock.value.url);
      LeavePersist();
    }

    /** The file is in storage: one commit writes the Audio row, the task and the follow-up. */
    method CommitAudio(chain: bool)
      requires lock.Some? && lock.value.stage == Saving
      modifies this
      ensures View() == PersistStep(old(View()), PersistCommit(chain))
    {
      row := row.(audio := Some(|saved|));
      saved := saved + [Saved(lock.value.poll, lock.value.bytes)];
      row := row.(status := Success);
      row := row.(url := true);
      chained := chained + (if chain then 1 else 0);
      LeavePersist();
    }

    /** From the download on: a file of the wrong kind or size, or one that cannot be stored, fails the task. */
    method FetchAndStore(bytes: nat, audio: bool, stored: bool, chain: bool) returns (done: bool)
      requires lock.Some? && lock.value.stage == Downloading && StillWanted(row)
      modifies this
      ensures View() == FetchedAlone(old(View()), bytes, audio, stored, chain)
      ensures done <==> row.status == Success && row.audio.Some?
      ensures done <==> audio && stored && SizeFits(old(lock).value.poll, bytes)
    {
      if !audio || !SizeFits(lock.value.poll, bytes) {
        FileRefused(View(), bytes, audio, stored, chain);
        FailAndLeave();
        return false;
      }
      FileTaken(View(), bytes, audio, stored, chain);
      lock := Some(lock.value.(stage := Saving, bytes := bytes, url := row.url));
      done := Store(stored, chain);
    }

    /** Into storage, and then into the database. */
    method Store(stored: bool, chain: bool) returns (done: bool)
      requires lock.Some? && lock.value.stage == Saving
      modifies this
      ensures View() == PersistStep(old(View()), if stored then PersistCommit(chain) else PersistFail)
      ensures done == stored && (done <==> row.status == Success && row.audio.Some?)
    {
      if !stored {
        FailAndLeave();
        return false;
      }
      CommitAudio(chain);
      done := true;
    }

    /** Refresh and look again: done already, not wanted, without an address, or on to the download. */
    method EnterPersist() returns (onward: bool)
      requires lock.Some? && lock.value.stage == Entered
      modifies this
      ensures View() == Noted(PersistStep(old(View()), PersistRefresh))
      ensures onward <==> StillWanted(old(row)) && old(row).url
      ensures onward ==> lock.Some? && lock.value.stage == Downloading && StillWanted(row)
    {
      if row.audio.Some? || row.status != Running {
        LeavePersist();
        return false;
      }
      if !row.url {
        row := row.(status := Error);
        LeavePersist();
        return false;
      }
      lock := Some(lock.value.(stage := Downloading, url := true));
      onward := true;
    }

    /** The call reports success only for an Audio row: its own, or one it found on a successful task. */
    method PersistCaptureArtifact(bytes: nat, audio: bool, stored: bool, chain: bool) returns (done: bool)
      requires lock.Some? && lock.value.stage == Entered
      modifies this
      ensures View() == PersistedAlone(old(View()), bytes, audio, stored, chain)
      ensures done <==> row.status == Success && row.audio.Some?
    {
      var onward := EnterPersist();
      if !onward {
        return row.audio.Some? && row.status == Success;
      }
      done := FetchAndStore(bytes, audio, stored, chain);
    }
  }
}
