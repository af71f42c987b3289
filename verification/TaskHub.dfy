/** The dispatcher, as methods that change task rows one assignment after another. */
module TaskHub {
  import opened Prelude
  import opened Money
  import opened Billing
  import opened Dispatch
  import opened TaskMachine
  import TaskRuns

  // ------------------------------------------------------------------ a completion in its parts

  /** The result is saved, or the row fails with the reason that saving was forbidden. */
  function Persisted(w: World, id: nat): World
    requires id < |w.tasks|
  {
    var t := w.tasks[id];
    if t.skip then
      w.(tasks := w.tasks[id := Failing(t, if t.skipReason.Some? then t.skipReason.value else SourceDeleted)])
    else
      w.(tasks := w.tasks[id := t.(produced := Some(w.nextDoc), status := Succeeded, error := None)],
         transcripts := if t.wish.kind == Transcribe then w.transcripts + {w.nextDoc} else w.transcripts,
         summaries := if t.wish.kind == Summarize then w.summaries + {w.nextDoc} else w.summaries,
         nextDoc := w.nextDoc + 1, completions := w.completions + multiset{id})
  }

  /** The task is charged, unless it was before or there is no wallet. */
  function Billed(w: World, id: nat, amount: real, raw: real): World
    requires id < |w.tasks|
  {
    var t := w.tasks[id];
    if !Chargeable(w, t) then w
    else w.(tasks := w.tasks[id := t.(billed := true)], prices := w.prices + [raw],
            ledger := Charge(w.ledger, t.org, id, t.snap.unlimited, amount))
  }

  /** A summarize task is chained to a saved transcription that names skills. */
  function Followed(w: World, id: nat): World
    requires id < |w.tasks|
  {
    var t := w.tasks[id];
    if t.wish.kind != Transcribe || t.skills == [] || t.produced.None? then w
    else
      var child := NewTask(Wish(Summarize, "", "", ""), t.produced.value, t.org, t.snap, t.skills, w.now);
      w.(tasks := w.tasks[id := t.(followUp := Some(|w.tasks|))] + [child],
         chained := w.chained + [(id, |w.tasks|)])
  }

  function Released(w: World, id: nat): World
    requires id < |w.tasks|
  {
    w.(tasks := w.tasks[id := w.tasks[id].(worker := None, workerTask := None)])
  }

  /** What saving and charging alone leave. */
  lemma SavedAndCharged(w: World, id: nat, audioSec: real, chars: nat)
    requires id < |w.tasks|
    ensures var t, done := w.tasks[id], Completed(w, id, audioSec, chars);
            var s := Billed(Persisted(w, id), id, Amount(t, audioSec, chars), RawPrice(t, audioSec, chars));
            && s == done.(tasks := w.tasks[id := s.tasks[id]], chained := w.chained)
            && s.tasks[id].(worker := None, workerTask := None)
               == CompletedRow(w, id).(followUp := t.followUp)
  {
  }

  /** Chaining and releasing the worker complete it. */
  lemma FollowedAndReleased(w: World, id: nat, audioSec: real, chars: nat, s: World)
    requires id < |w.tasks|
    requires var done := Completed(w, id, audioSec, chars);
             id < |s.tasks| && s == done.(tasks := w.tasks[id := s.tasks[id]], chained := w.chained)
    requires s.tasks[id].(worker := None, workerTask := None)
             == CompletedRow(w, id).(followUp := w.tasks[id].followUp)
    ensures Released(Followed(s, id), id) == Completed(w, id, audioSec, chars)
  {
  }

  /** Saving, charging, chaining and releasing the worker, one after another, make up a completion. */
  lemma CompletionInParts(w: World, id: nat, audioSec: real, chars: nat)
    requires id < |w.tasks|
    ensures var amount, raw := Amount(w.tasks[id], audioSec, chars), RawPrice(w.tasks[id], audioSec, chars);
            Released(Followed(Billed(Persisted(w, id), id, amount, raw), id), id) == Completed(w, id, audioSec, chars)
  {
    var t := w.tasks[id];
    SavedAndCharged(w, id, audioSec, chars);
    var s := Billed(Persisted(w, id), id, Amount(t, audioSec, chars), RawPrice(t, audioSec, chars));
    FollowedAndReleased(w, id, audioSec, chars, s);
  }

  class Hub {
    var tasks: seq<Task>
    var audios: set<nat>
    var transcripts: set<nat>
    var summaries: set<nat>
    var nextDoc: nat
    var skills: set<nat>
    var nodes: seq<Node>
    var ledger: Ledger
    var now: int
    var timeoutSec: int
    ghost var funded: map<nat, real>
    ghost var prices: seq<real>
    ghost var completions: multiset<nat>
    ghost var chained: seq<(nat, nat)>

    constructor (nodes: seq<Node>, skills: set<nat>, timeoutSec: int)
      ensures View() == World([], {}, {}, {}, 0, skills, nodes, Ledger(map[], []), 0, timeoutSec,
                              map[], [], multiset{}, [])
      ensures DistinctIds(nodes) ==> TaskRuns.Sound(View())
    {
      tasks, audios, transcripts, summaries, nextDoc := [], {}, {}, {}, 0;
      this.skills, this.nodes, ledger, now, this.timeoutSec := skills, nodes, Ledger(map[], []), 0, timeoutSec;
      funded, prices, completions, chained := map[], [], multiset{}, [];
      new;
      if DistinctIds(nodes) {
        TaskRuns.RunKeepsSound(View(), []);
      }
    }

    ghost function View(): World
      reads this
    {
      World(tasks, audios, transcripts, summaries, nextDoc, skills, nodes, ledger, now, timeoutSec,
            funded, prices, completions, chained)
    }

    method SetRow(id: nat, t: Task)
      requires id < |tasks|
      modifies this`tasks
      ensures tasks == old(tasks)[id := t]
    {
      tasks := tasks[id := t];
    }

    method Fail(id: nat, code: ErrorCode)
      requires id < |tasks|
      modifies this`tasks
      ensures tasks == old(tasks)[id := Failing(old(tasks)[id], code)]
    {
      var t := tasks[id];
      t := t.(status := Errored);
      t := t.(error := Some(code));
      t := t.(worker := None);
      t := t.(workerTask := None);
      tasks := tasks[id := t];
    }

    method Requeue(id: nat)
      requires id < |tasks|
      modifies this`tasks
      ensures tasks == old(tasks)[id := Requeued(old(tasks)[id])]
    {
      var t := tasks[id];
      t := t.(worker := None);
      t := t.(workerTask := None);
      t := t.(status := Queued);
      tasks := tasks[id := t];
    }

    /** Insert the result as a new transcript or summary. */
    method InsertResult(kind: Kind) returns (doc: nat)
      modifies this`transcripts, this`summaries, this`nextDoc
      ensures doc == old(nextDoc) && nextDoc == doc + 1
      ensures transcripts == if kind == Transcribe then old(transcripts) + {doc} else old(transcripts)
      ensures summaries == if kind == Summarize then old(summaries) + {doc} else old(summaries)
    {
      doc := nextDoc;
      if kind == Transcribe {
        transcripts := transcripts + {doc};
      } else {
        summaries := summaries + {doc};
      }
      nextDoc := doc + 1;
    }

    /** Save the result as a new row, unless saving was forbidden meanwhile. */
    method Persist(id: nat)
      requires id < |tasks|
      modifies this`tasks, this`transcripts, this`summaries, this`nextDoc, this`completions
      ensures View() == Persisted(old(View()), id)
    {
      var t := tasks[id];
      if t.skip {
        Fail(id, if t.skipReason.Some? then t.skipReason.value else SourceDeleted);
        return;
      }
      var doc := InsertResult(t.wish.kind);
      t := t.(produced := Some(doc));
      t := t.(status := Succeeded);
      t := t.(error := None);
      tasks := tasks[id := t];
      completions := completions + multiset{id};
    }

    method ApplyCharge(id: nat, amount: real, ghost raw: real)
      requires id < |tasks|
      modifies this`tasks, this`ledger, this`prices
      ensures View() == Billed(old(View()), id, amount, raw)
    {
      var t := tasks[id];
      if t.org !in ledger.balances || t.billed {
        return;
      }
      if !t.snap.unlimited {
        ledger := ledger.(balances := ledger.balances[t.org := FloorMoney(ledger.balances[t.org] - amount)]);
      }
      ledger := ledger.(events := ledger.events + [UsageEvent(t.org, id, amount, t.snap.unlimited)]);
      prices := prices + [raw];
      tasks := tasks[id := t.(billed := true)];
    }

    /** Chain a summarize task to a transcription that names skills. */
    method EnqueueSummarize(id: nat)
      requires id < |tasks|
      modifies this`tasks, this`chained
      ensures View() == Followed(old(View()), id)
    {
      var t := tasks[id];
      if t.wish.kind != Transcribe || t.skills == [] || t.produced.None? {
        return;
      }
      var child := NewTask(Wish(Summarize, "", "", ""), t.produced.value, t.org, t.snap, t.skills, now);
      chained := chained + [(id, |tasks|)];
      tasks := tasks[id := t.(followUp := Some(|tasks|))] + [child];
    }

    /** A worker's result: save, charge, chain, and let go of the worker. */
    method OnSuccess(id: nat, audioSec: real, chars: nat)
      requires id < |tasks|
      modifies this
      ensures View() == Completed(old(View()), id, audioSec, chars)
    {
      CompletionInParts(View(), id, audioSec, chars);
      var amount := Amount(tasks[id], audioSec, chars);
      ghost var raw := RawPrice(tasks[id], audioSec, chars);
      Persist(id);
      ApplyCharge(id, amount, raw);
      EnqueueSummarize(id);
      var t := tasks[id];
      t := t.(workerTask := None);
      t := t.(worker := None);
      tasks := tasks[id := t];
    }

    method Report(id: nat, status: WorkerStatus)
      requires id < |tasks|
      modifies this
      ensures View() == Reported(old(View()), id, status)
    {
      match status
      case WorkerSuccess(audioSec, chars) => OnSuccess(id, audioSec, chars);
      case WorkerError(code) => Fail(id, MapWorkerError(code));
      case _ =>
    }

    /** The node a row names, if it is still in the table. */
    method FindNode(worker: Option<nat>) returns (found: bool)
      ensures found <==> worker.Some? && exists n :: n in nodes && n.id == worker.value
    {
      found := false;
      if worker.None? {
        return;
      }
      for i := 0 to |nodes|
        invariant !found && forall n :: n in nodes[..i] ==> n.id != worker.value
      {
        if nodes[i].id == worker.value {
          return true;
        }
      }
    }

    method LoseTask(id: nat)
      requires id < |tasks|
      modifies this`tasks
      ensures tasks == old(tasks)[id := Lost(old(tasks)[id])]
    {
      var t := tasks[id];
      if t.status == Succeeded || t.produced.Some? {
        t := t.(worker := None);
        t := t.(workerTask := None);
        tasks := tasks[id := t];
      } else {
        Requeue(id);
      }
    }

    method PollRunningTask(id: nat, answer: Answer)
      requires id < |tasks|
      modifies this
      ensures View() == PollStep(old(View()), id, answer)
      ensures TaskRuns.Sound(old(View())) ==> TaskRuns.Sound(View())
    {
      if TaskRuns.Sound(View()) {
        TaskRuns.PollKeepsSound(View(), id, answer);
      }
      var t := tasks[id];
      if t.status != Running || t.workerTask.None? {
        return;
      }
      var found := FindNode(t.worker);
      if !found {
        Requeue(id);
        return;
      }
      match answer
      case NoContact =>
      case Http404 => LoseTask(id);
      case Http5xx =>
      case Answered(status) => Report(id, status);
    }

    method RecoverWorkerTask(id: nat, answer: Answer)
      requires id < |tasks|
      modifies this
      ensures View() == RecoverStep(old(View()), id, answer)
      ensures TaskRuns.Sound(old(View())) ==> TaskRuns.Sound(View())
    {
      if TaskRuns.Sound(View()) {
        TaskRuns.RecoverKeepsSound(View(), id, answer);
      }
      var t := tasks[id];
      if t.status != Running {
        return;
      }
      var found := FindNode(t.worker);
      if t.workerTask.None? || !found || answer.NoContact? || answer.Http5xx? {
        Requeue(id);
      } else if answer.Http404? {
        LoseTask(id);
      } else if answer.status.WorkerUnclear? {
        Requeue(id);
      } else {
        Report(id, answer.status);
      }
    }

    method SourceOf(id: nat, tooLong: bool) returns (blocked: Option<ErrorCode>)
      requires id < |tasks|
      ensures blocked == Blocked(View(), tasks[id], tooLong)
    {
      var t := tasks[id];
      var known := if t.wish.kind == Transcribe then audios else transcripts;
      if t.source.None? || t.source.value !in known {
        return Some(SourceDeleted);
      }
      if t.wish.kind == Transcribe {
        return None;
      }
      for i := 0 to |t.skills|
        invariant forall s :: s in t.skills[..i] ==> s in skills
      {
        if t.skills[i] !in skills {
          return Some(NotFound);
        }
      }
      assert t.skills[..|t.skills|] == t.skills;
      blocked := if tooLong then Some(TextTooLong) else None;
    }

    /** Take down what came of an offering. */
    method Settle(id: nat, o: Offering)
      requires id < |tasks|
      modifies this
      ensures View() == Offered(old(View()), id, o)
    {
      var t := tasks[id];
      if o.noTimeout {
        t := t.(noTimeout := true);
      }
      match o.outcome
      case NotPlaced =>
        tasks := tasks[id := t];
      case Failed(code) =>
        tasks := tasks[id := Failing(t, code)];
      case AcceptedBy(node, workerTask, status) =>
        t := t.(worker := Some(node.id));
        t := t.(workerTask := workerTask);
        t := t.(status := Running);
        tasks := tasks[id := t];
        Report(id, status);
    }

    method OfferTask(id: nat, replies: nat -> Reply, tooLong: bool)
      requires id < |tasks| && DistinctIds(nodes)
      modifies this
      ensures View() == Offered(old(View()), id, OfferingOf(old(View()), old(tasks)[id], replies, tooLong))
    {
      var candidates := Candidates(nodes, tasks[id].wish);
      CandidatesDistinct(nodes, tasks[id].wish);
      var blocked := SourceOf(id, tooLong);
      var posts, noTimeout, outcome := OfferToCandidates(Rows(tasks), candidates, replies, blocked);
      Settle(id, Offering(posts, noTimeout, outcome));
    }

    method DispatchQueuedTask(id: nat, replies: nat -> Reply, tooLong: bool)
      requires id < |tasks| && DistinctIds(nodes)
      modifies this
      ensures View() == DispatchStep(old(View()), id, replies, tooLong)
      ensures TaskRuns.Sound(old(View())) ==> TaskRuns.Sound(View())
    {
      if TaskRuns.Sound(View()) {
        TaskRuns.DispatchKeepsSound(View(), id, replies, tooLong);
      }
      var t := tasks[id];
      if t.status != Queued {
        return;
      }
      var pool := PoolState(nodes, t.wish);
      if pool == Waiting {
        SetRow(id, t.(noTimeout := true));
        return;
      }
      if !t.noTimeout && pool == Empty && timeoutSec > 0 && now - t.queuedAt >= timeoutSec {
        Fail(id, DispatchTimeout);
        return;
      }
      OfferTask(id, replies, tooLong);
    }

    /** One turn of the dispatcher for one task: ask its worker, then try to place it if it is queued. */
    method Tick(id: nat, answer: Answer, replies: nat -> Reply, tooLong: bool)
      requires id < |tasks| && DistinctIds(nodes)
      modifies this
      ensures View() == Step(Step(old(View()), Poll(id, answer)), Try(id, replies, tooLong))
      ensures TaskRuns.Sound(old(View())) ==> TaskRuns.Sound(View())
    {
      PollRunningTask(id, answer);
      DispatchQueuedTask(id, replies, tooLong);
    }

    method RetryTask(id: nat, allowed: bool) returns (accepted: bool)
      requires id < |tasks|
      modifies this
      ensures View() == Step(old(View()), Retry(id, allowed))
      ensures TaskRuns.Sound(old(View())) ==> TaskRuns.Sound(View())
      ensures accepted <==> allowed && Retriable(old(View()), old(tasks)[id])
    {
      if TaskRuns.Sound(View()) {
        TaskRuns.StepKeepsSound(View(), Retry(id, allowed));
      }
      var t := tasks[id];
      var known := if t.wish.kind == Transcribe then audios else transcripts;
      if t.status != Errored || t.error.None? || t.error.value in NON_RETRIABLE
         || !allowed || t.source.None? || t.source.value !in known {
        return false;
      }
      Reset(id);
      accepted := true;
    }

    method Reset(id: nat)
      requires id < |tasks|
      modifies this`tasks
      ensures tasks == old(tasks)[id := Retried(old(tasks)[id], now)]
    {
      var t := tasks[id];
      t := t.(status := Queued);
      t := t.(error := None);
      t := t.(worker := None, workerTask := None, produced := None);
      t := t.(noTimeout := false);
      t := t.(skip := false, skipReason := None);
      t := t.(queuedAt := now);
      tasks := tasks[id := t];
    }

    method CancelTask(id: nat) returns (accepted: bool)
      requires id < |tasks|
      modifies this
      ensures View() == Step(old(View()), Cancel(id))
      ensures TaskRuns.Sound(old(View())) ==> TaskRuns.Sound(View())
      ensures accepted <==> old(tasks)[id].status == Queued && old(tasks)[id].workerTask.None?
    {
      if TaskRuns.Sound(View()) {
        TaskRuns.StepKeepsSound(View(), Cancel(id));
      }
      if tasks[id].status != Queued || tasks[id].workerTask.Some? {
        return false;
      }
      SetRow(id, tasks[id].(status := Errored, error := Some(Canceled)));
      accepted := true;
    }

    method CancelQueuedForSource(kind: Kind, source: nat)
      modifies this`tasks
      ensures tasks == StoppedFor(old(tasks), kind, source)
    {
      for i := 0 to |tasks|
        invariant |tasks| == |old(tasks)|
        invariant forall j :: 0 <= j < i ==> tasks[j] == StoppedFor(old(tasks), kind, source)[j]
        invariant forall j :: i <= j < |tasks| ==> tasks[j] == old(tasks)[j]
      {
        var t := tasks[i];
        if (t.status == Queued || t.status == Running) && t.wish.kind == kind && t.source == Some(source) {
          if t.status == Queued && t.workerTask.None? {
            t := t.(status := Errored);
            t := t.(error := Some(Canceled));
          } else {
            t := t.(skip := true);
            t := t.(skipReason := Some(SourceDeleted));
          }
          tasks := tasks[i := t];
        }
      }
    }

    /** Delete an audio or a transcript: stop its tasks, then drop the row and the references to it. */
    method HardDelete(kind: Kind, doc: nat)
      requires doc in (if kind == Transcribe then audios else transcripts)
      modifies this
      ensures View() == Step(old(View()), Delete(kind, doc))
      ensures TaskRuns.Sound(old(View())) ==> TaskRuns.Sound(View())
    {
      if TaskRuns.Sound(View()) {
        TaskRuns.StepKeepsSound(View(), Delete(kind, doc));
      }
      CancelQueuedForSource(kind, doc);
      tasks := OrphanedAll(tasks, kind, doc);
      if kind == Transcribe {
        audios := audios - {doc};
      } else {
        transcripts := transcripts - {doc};
      }
    }

    /** Move the tasks that lose their models, or run on the node, to a pair of models still offered. */
    method ApplyRemediation(before: set<Wish>, after: set<Wish>, focus: nat, wish: Wish) returns (accepted: bool)
      modifies this
      ensures View() == Step(old(View()), Remediate(before, after, focus, wish))
      ensures accepted <==> Models(wish) in after
      ensures TaskRuns.Sound(old(View())) ==> TaskRuns.Sound(View())
    {
      if Models(wish) !in after {
        return false;
      }
      if TaskRuns.Sound(View()) {
        TaskRuns.RemediateKeepsSound(View(), before, after, focus, wish);
      }
      MoveTasks(before, after, focus, wish);
      accepted := true;
    }

    method MoveTasks(before: set<Wish>, after: set<Wish>, focus: nat, wish: Wish)
      modifies this`tasks
      ensures tasks == RemodelledAll(old(tasks), before, after, focus, wish)
    {
      for i := 0 to |tasks|
        invariant |tasks| == |old(tasks)|
        invariant forall j :: 0 <= j < i ==> tasks[j] == RemodelledAll(old(tasks), before, after, focus, wish)[j]
        invariant forall j :: i <= j < |tasks| ==> tasks[j] == old(tasks)[j]
      {
        var t := tasks[i];
        if Moved(t, before, after, focus, wish) {
          t := t.(wish := Models(wish));
          if t.status == Running {
            t := t.(worker := None);
            t := t.(workerTask := None);
            t := t.(status := Queued);
          }
          t := t.(noTimeout := false);
          tasks := tasks[i := t];
        }
      }
    }

    /** Let go of the node on all tasks that name it, then drop it. */
    method DeleteWorker(node: nat)
      modifies this
      ensures View() == Step(old(View()), RemoveNode(node))
      ensures TaskRuns.Sound(old(View())) ==> TaskRuns.Sound(View())
    {
      if TaskRuns.Sound(View()) {
        TaskRuns.RemoveKeepsSound(View(), node);
      }
      DetachTasks(node);
      nodes := WithoutId(nodes, node);
    }

    method DetachTasks(node: nat)
      modifies this`tasks
      ensures tasks == DetachedAll(old(tasks), node)
    {
      for i := 0 to |tasks|
        invariant |tasks| == |old(tasks)|
        invariant forall j :: 0 <= j < i ==> tasks[j] == DetachedAll(old(tasks), node)[j]
        invariant forall j :: i <= j < |tasks| ==> tasks[j] == old(tasks)[j]
      {
        var t := tasks[i];
        if t.worker == Some(node) {
          t := t.(worker := None);
          if t.status == Running {
            t := t.(workerTask := None);
          }
          tasks := tasks[i := t];
        }
      }
    }
  }
}
