/** What every run of the task machine keeps. */
module TaskRuns {
  import opened Prelude
  import opened Money
  import opened Billing
  import opened Dispatch
  import opened TaskMachine

  predicate Live(t: Task) {
    t.status == Queued || t.status == Running
  }

  /**
    A row held by a worker is running; a waiting one is held by none; a saved result means success; a
    live task whose source is gone may not save.
   */
  ghost predicate RowSound(w: World, t: Task) {
    && (t.workerTask.Some? ==> t.status == Running && t.worker.Some?)
    && (t.worker.Some? ==> t.status == Running)
    && (t.produced.Some? ==> t.status == Succeeded)
    && (t.status == Errored <==> t.error.Some?)
    && (t.source.None? && Live(t) ==> t.skip)
    && (t.status == Succeeded ==> !t.skip)
    && (t.source.Some? ==> t.source.value in Sources(w, t.wish.kind))
    && (t.skipReason.Some? ==> t.skipReason.value in WITHDRAWALS + {SourceDeleted})
  }

  ghost predicate RowsSound(w: World) {
    DistinctIds(w.nodes) && forall id :: 0 <= id < |w.tasks| ==> RowSound(w, w.tasks[id])
  }

  /** A transcription has a follow-up exactly when it succeeded and names skills. */
  ghost predicate FollowUpSound(t: Task) {
    t.followUp.Some? <==> t.status == Succeeded && t.wish.kind == Transcribe && t.skills != []
  }

  /** A recorded pair is a parent row that names its child, and a summarize row. */
  ghost predicate PairSound(w: World, pair: (nat, nat)) {
    && pair.0 < pair.1 < |w.tasks|
    && w.tasks[pair.0].followUp == Some(pair.1)
    && w.tasks[pair.1].wish.kind == Summarize
  }

  ghost predicate ChainSound(w: World) {
    && (forall id :: 0 <= id < |w.tasks| ==> FollowUpSound(w.tasks[id]))
    && (forall i :: 0 <= i < |w.chained| ==> PairSound(w, w.chained[i]))
    && (forall i, j :: 0 <= i < j < |w.chained| ==> w.chained[i].0 != w.chained[j].0)
  }

  /** Success was entered once by the tasks that are in it, and by no others. */
  ghost predicate SuccessSound(w: World) {
    forall id: nat :: w.completions[id] == if id < |w.tasks| && w.tasks[id].status == Succeeded then 1 else 0
  }

  /** Every wallet is its funds less its charges, in whole thousandths. */
  ghost predicate WalletsSound(l: Ledger, funded: map<nat, real>) {
    && LedgerIsMoney(l)
    && funded.Keys == l.balances.Keys
    && (forall o :: o in funded ==> l.balances[o] + Charged(l.events, o) == funded[o])
    && (forall e :: e in l.events ==> IsMoney(e.amount) && e.org in l.balances)
  }

  /** A task has one usage event if it was billed, and none otherwise. */
  ghost predicate BilledOnce(w: World) {
    forall id: nat :: EventsOf(w.ledger.events, id) == if id < |w.tasks| && w.tasks[id].billed then 1 else 0
  }

  /** Every usage event is fair to the price behind it. */
  ghost predicate PricesSound(events: seq<UsageEvent>, prices: seq<real>) {
    |prices| == |events| && forall i :: 0 <= i < |events| ==> Fair(events[i].amount, prices[i])
  }

  /** The next number for a document is free. */
  ghost predicate DocsSound(w: World) {
    && (forall d :: d in w.audios || d in w.transcripts || d in w.summaries ==> d < w.nextDoc)
    && (forall id :: 0 <= id < |w.tasks| && w.tasks[id].produced.Some? ==> w.tasks[id].produced.value < w.nextDoc)
  }

  ghost predicate Sound(w: World) {
    && RowsSound(w) && ChainSound(w) && SuccessSound(w) && BilledOnce(w) && DocsSound(w)
    && WalletsSound(w.ledger, w.funded) && PricesSound(w.ledger.events, w.prices)
  }

  // ------------------------------------------------------------------ a completion

  /** A charge is fair to the raw price by the tariff that the row carries. */
  lemma AmountIsFair(t: Task, audioSec: real, chars: nat)
    ensures Fair(Amount(t, audioSec, chars), RawPrice(t, audioSec, chars))
  {
    if t.wish.kind == Transcribe {
      ChargeIsFair(TranscribePrice(t.snap, audioSec));
    } else {
      ChargeIsFair(SummarizePrice(t.snap, chars));
    }
  }

  lemma ChargeKeepsWallets(l: Ledger, funded: map<nat, real>, org: nat, task: nat, unlimited: bool, amount: real)
    requires WalletsSound(l, funded) && IsMoney(amount) && org in l.balances
    ensures WalletsSound(Charge(l, org, task, unlimited, amount), funded)
  {
    ChargeConserves(l, org, task, unlimited, amount);
    var event := UsageEvent(org, task, amount, unlimited);
    assert forall e :: e in l.events + [event] ==> e in l.events || e == event;
  }

  /** A running row a worker has answered for. */
  ghost predicate Completable(w: World, t: Task) {
    t.status == Running && RowSound(w, t)
  }

  lemma CompletionKeepsRows(w: World, id: nat, audioSec: real, chars: nat)
    requires RowsSound(w) && id < |w.tasks| && w.tasks[id].status == Running
    ensures RowsSound(Completed(w, id, audioSec, chars))
  {
  }

  lemma CompletionKeepsChain(w: World, id: nat, audioSec: real, chars: nat)
    requires ChainSound(w) && id < |w.tasks| && Completable(w, w.tasks[id])
    ensures ChainSound(Completed(w, id, audioSec, chars))
  {
    var w' := Completed(w, id, audioSec, chars);
    var t := w.tasks[id];
    assert FollowUpSound(t);
    forall i | 0 <= i < |w'.tasks| ensures FollowUpSound(w'.tasks[i]) {
      if i < |w.tasks| && i != id {
        assert FollowUpSound(w.tasks[i]);
      }
    }
    forall i | 0 <= i < |w.chained| ensures PairSound(w', w.chained[i]) && w.chained[i].0 != id {
      assert PairSound(w, w.chained[i]);
    }
  }

  lemma CompletionKeepsSuccess(w: World, id: nat, audioSec: real, chars: nat)
    requires SuccessSound(w) && id < |w.tasks| && Completable(w, w.tasks[id])
    ensures SuccessSound(Completed(w, id, audioSec, chars))
  {
  }

  lemma CompletionBillsOnce(w: World, id: nat, audioSec: real, chars: nat)
    requires BilledOnce(w) && id < |w.tasks| && Completable(w, w.tasks[id])
    ensures BilledOnce(Completed(w, id, audioSec, chars))
  {
  }

  lemma CompletionKeepsWallets(w: World, id: nat, audioSec: real, chars: nat)
    requires WalletsSound(w.ledger, w.funded) && id < |w.tasks|
    ensures var w' := Completed(w, id, audioSec, chars); WalletsSound(w'.ledger, w'.funded)
  {
    var t := w.tasks[id];
    if Chargeable(w, t) {
      AmountIsFair(t, audioSec, chars);
      ChargeKeepsWallets(w.ledger, w.funded, t.org, id, t.snap.unlimited, Amount(t, audioSec, chars));
    }
  }

  lemma CompletionKeepsPrices(w: World, id: nat, audioSec: real, chars: nat)
    requires PricesSound(w.ledger.events, w.prices) && id < |w.tasks|
    ensures var w' := Completed(w, id, audioSec, chars); PricesSound(w'.ledger.events, w'.prices)
  {
    AmountIsFair(w.tasks[id], audioSec, chars);
  }

  lemma CompletionKeepsDocs(w: World, id: nat, audioSec: real, chars: nat)
    requires DocsSound(w) && id < |w.tasks| && Completable(w, w.tasks[id])
    ensures DocsSound(Completed(w, id, audioSec, chars))
  {
    var w' := Completed(w, id, audioSec, chars);
    forall i | 0 <= i < |w'.tasks| && w'.tasks[i].produced.Some? ensures w'.tasks[i].produced.value < w'.nextDoc {
      assert i < |w.tasks| && i != id ==> w'.tasks[i] == w.tasks[i];
    }
  }

  lemma ReportKeepsSound(w: World, id: nat, status: WorkerStatus)
    requires Sound(w) && id < |w.tasks| && w.tasks[id].status == Running
    ensures Sound(Reported(w, id, status))
  {
    assert Completable(w, w.tasks[id]);
    match status
    case WorkerSuccess(audioSec, chars) =>
      CompletionKeepsRows(w, id, audioSec, chars);
      CompletionKeepsChain(w, id, audioSec, chars);
      CompletionKeepsSuccess(w, id, audioSec, chars);
      CompletionBillsOnce(w, id, audioSec, chars);
      CompletionKeepsWallets(w, id, audioSec, chars);
      CompletionKeepsPrices(w, id, audioSec, chars);
      CompletionKeepsDocs(w, id, audioSec, chars);
    case WorkerError(code) => FailingKeepsSound(w, id, MapWorkerError(code));
    case _ =>
  }

  // ------------------------------------------------------------------ steps that complete nothing

  /** A row may change in any way that neither enters nor leaves success. */
  ghost predicate Steady(t: Task, t': Task) {
    && t'.wish.kind == t.wish.kind && t'.skills == t.skills && t'.followUp == t.followUp && t'.billed == t.billed
    && (t'.status == Succeeded <==> t.status == Succeeded)
    && (t'.produced.Some? ==> t'.produced == t.produced)
  }

  ghost predicate SameBooks(w: World, w': World) {
    && w'.ledger == w.ledger && w'.funded == w.funded && w'.prices == w.prices
    && w'.chained == w.chained && w'.completions == w.completions
  }

  lemma SteadyKeepsSound(w: World, w': World)
    requires Sound(w) && SameBooks(w, w') && |w'.tasks| == |w.tasks| && DistinctIds(w'.nodes)
    requires w'.nextDoc >= w.nextDoc
    requires forall d :: d in w'.audios || d in w'.transcripts || d in w'.summaries ==> d < w'.nextDoc
    requires forall i :: 0 <= i < |w.tasks| ==> Steady(w.tasks[i], w'.tasks[i]) && RowSound(w', w'.tasks[i])
    ensures Sound(w')
  {
  }

  lemma RowKeepsSound(w: World, id: nat, t': Task)
    requires Sound(w) && id < |w.tasks| && Steady(w.tasks[id], t') && RowSound(w, t')
    ensures Sound(w.(tasks := w.tasks[id := t']))
  {
  }

  lemma FailingKeepsSound(w: World, id: nat, code: ErrorCode)
    requires Sound(w) && id < |w.tasks| && Live(w.tasks[id])
    ensures Sound(w.(tasks := w.tasks[id := Failing(w.tasks[id], code)]))
  {
    assert RowSound(w, w.tasks[id]);
    RowKeepsSound(w, id, Failing(w.tasks[id], code));
  }

  lemma NewTaskKeepsSound(w: World, t: Task)
    requires Sound(w) && RowSound(w, t) && t.status == Queued && t.followUp.None? && !t.billed && t.produced.None?
    ensures Sound(w.(tasks := w.tasks + [t]))
  {
  }

  lemma PollKeepsSound(w: World, id: nat, answer: Answer)
    requires Sound(w) && id < |w.tasks|
    ensures Sound(PollStep(w, id, answer))
  {
    var t := w.tasks[id];
    assert RowSound(w, t);
    if t.status == Running && t.workerTask.Some? {
      if !NodeKnown(w, t) || answer.Http404? {
        RowKeepsSound(w, id, Requeued(t));
      } else if answer.Answered? {
        ReportKeepsSound(w, id, answer.status);
      }
    }
  }

  lemma RecoverKeepsSound(w: World, id: nat, answer: Answer)
    requires Sound(w) && id < |w.tasks|
    ensures Sound(RecoverStep(w, id, answer))
  {
    var t := w.tasks[id];
    assert RowSound(w, t);
    if t.status == Running {
      RowKeepsSound(w, id, Requeued(t));
      if answer.Answered? {
        ReportKeepsSound(w, id, answer.status);
      }
    }
  }

  /** A task is only placed with a source to work on. */
  lemma AcceptedHasSource(w: World, t: Task, replies: nat -> Reply, tooLong: bool)
    requires DistinctIds(w.nodes)
    ensures OfferingOf(w, t, replies, tooLong).outcome.AcceptedBy? ==> HasSource(w, t)
  {
  }

  /** No reply of a worker reads as a timeout. */
  lemma NotATimeout(w: World, t: Task, replies: nat -> Reply, tooLong: bool)
    ensures OfferingOf(w, t, replies, tooLong).outcome != Failed(DispatchTimeout)
  {
    OfferNeverTimesOut(Rows(w.tasks), Candidates(w.nodes, t.wish), replies, Blocked(w, t, tooLong));
  }

  lemma PlacedIsSound(w: World, t: Task, o: Offering)
    requires RowSound(w, t) && t.status == Queued && (o.outcome.AcceptedBy? ==> HasSource(w, t))
    ensures Steady(t, Placed(t, o)) && RowSound(w, Placed(t, o))
  {
  }

  lemma OfferedKeepsSound(w: World, id: nat, o: Offering)
    requires Sound(w) && id < |w.tasks| && w.tasks[id].status == Queued
    requires o.outcome.AcceptedBy? ==> HasSource(w, w.tasks[id])
    ensures Sound(w.(tasks := w.tasks[id := Placed(w.tasks[id], o)])) && Sound(Offered(w, id, o))
  {
    var t := w.tasks[id];
    assert RowSound(w, t);
    PlacedIsSound(w, t, o);
    RowKeepsSound(w, id, Placed(t, o));
    if o.outcome.AcceptedBy? {
      ReportKeepsSound(w.(tasks := w.tasks[id := Placed(t, o)]), id, o.outcome.status);
    }
  }

  lemma DispatchKeepsSound(w: World, id: nat, replies: nat -> Reply, tooLong: bool)
    requires Sound(w) && id < |w.tasks|
    ensures Sound(DispatchStep(w, id, replies, tooLong))
  {
    var t := w.tasks[id];
    assert RowSound(w, t);
    if t.status == Queued {
      if PoolOf(w.nodes, t.wish) == Waiting {
        RowKeepsSound(w, id, t.(noTimeout := true));
      } else if TimesOut(w, t) {
        FailingKeepsSound(w, id, DispatchTimeout);
      } else {
        AcceptedHasSource(w, t, replies, tooLong);
        OfferedKeepsSound(w, id, OfferingOf(w, t, replies, tooLong));
      }
    }
  }

  lemma StoppedEvolves(t: Task, code: ErrorCode, reason: ErrorCode)
    ensures var t' := Stopped(t, code, reason);
            Steady(t, t') && RowEvolves(t, t') && (Live(t') ==> t'.skip)
  {
  }

  lemma StoppedRow(w: World, t: Task, code: ErrorCode, reason: ErrorCode)
    requires RowSound(w, t) && reason in WITHDRAWALS + {SourceDeleted}
    ensures var t' := Stopped(t, code, reason);
            Steady(t, t') && RowSound(w, t') && RowEvolves(t, t') && (Live(t') ==> t'.skip)
  {
    StoppedEvolves(t, code, reason);
  }

  /** A deleted document leaves a row that could not have saved any more, if it was its source. */
  lemma OrphanedRow(w: World, kind: Kind, doc: nat, t: Task)
    requires RowSound(w, t) && (t.wish.kind == kind && t.source == Some(doc) && Live(t) ==> t.skip)
    ensures Steady(t, Orphaned(t, kind, doc)) && RowSound(Deleted(w, kind, doc), Orphaned(t, kind, doc))
  {
  }

  lemma DeletedRow(w: World, kind: Kind, doc: nat, t: Task)
    requires RowSound(w, t)
    ensures var hit := t.wish.kind == kind && t.source == Some(doc);
            var t' := Orphaned(if hit then Stopped(t, Canceled, SourceDeleted) else t, kind, doc);
            Steady(t, t') && RowSound(Deleted(w, kind, doc), t')
  {
    StoppedRow(w, t, Canceled, SourceDeleted);
    if t.wish.kind == kind && t.source == Some(doc) {
      OrphanedRow(w, kind, doc, Stopped(t, Canceled, SourceDeleted));
    } else {
      OrphanedRow(w, kind, doc, t);
    }
  }

  lemma DeleteKeepsSound(w: World, kind: Kind, doc: nat)
    requires Sound(w)
    ensures Sound(Deleted(w, kind, doc))
  {
    var w' := Deleted(w, kind, doc);
    forall i | 0 <= i < |w.tasks| ensures Steady(w.tasks[i], w'.tasks[i]) && RowSound(w', w'.tasks[i]) {
      DeletedRow(w, kind, doc, w.tasks[i]);
    }
    SteadyKeepsSound(w, w');
  }

  /** Rows change, and nothing else does. */
  lemma RowsKeepSound(w: World, tasks: seq<Task>)
    requires Sound(w) && |tasks| == |w.tasks|
    requires forall i :: 0 <= i < |tasks| ==> Steady(w.tasks[i], tasks[i]) && RowSound(w, tasks[i])
    ensures Sound(w.(tasks := tasks))
  {
    var w' := w.(tasks := tasks);
    forall i | 0 <= i < |w.tasks| ensures Steady(w.tasks[i], w'.tasks[i]) && RowSound(w', w'.tasks[i]) {
      assert RowSound(w, tasks[i]);
    }
    SteadyKeepsSound(w, w');
  }

  lemma WithdrawKeepsSound(w: World, ids: set<nat>, code: Withdrawal)
    requires Sound(w)
    ensures Sound(w.(tasks := WithdrawnAll(w.tasks, ids, code)))
  {
    var tasks := WithdrawnAll(w.tasks, ids, code);
    forall i | 0 <= i < |tasks| ensures Steady(w.tasks[i], tasks[i]) && RowSound(w, tasks[i]) {
      assert RowSound(w, w.tasks[i]);
      StoppedRow(w, w.tasks[i], code, code);
    }
    RowsKeepSound(w, tasks);
  }

  lemma RemodelledRow(w: World, t: Task, wish: Wish)
    requires RowSound(w, t) && t.wish.kind == wish.kind && Live(t)
    ensures var t' := Remodelled(t, wish); Steady(t, t') && RowSound(w, t') && RowEvolves(t, t')
  {
  }

  lemma DetachedRow(w: World, t: Task, node: nat)
    requires RowSound(w, t)
    ensures var t' := Detached(t, node); Steady(t, t') && RowSound(w, t') && RowEvolves(t, t')
  {
  }

  /** Moving tasks to other models keeps the invariant. */
  lemma RemediateKeepsSound(w: World, before: set<Wish>, after: set<Wish>, focus: nat, wish: Wish)
    requires Sound(w)
    ensures Sound(w.(tasks := RemodelledAll(w.tasks, before, after, focus, wish)))
  {
    var tasks := RemodelledAll(w.tasks, before, after, focus, wish);
    forall i | 0 <= i < |tasks| ensures Steady(w.tasks[i], tasks[i]) && RowSound(w, tasks[i]) {
      assert RowSound(w, w.tasks[i]);
      if Moved(w.tasks[i], before, after, focus, wish) {
        RemodelledRow(w, w.tasks[i], wish);
      }
    }
    RowsKeepSound(w, tasks);
  }

  /** Removing a node keeps the invariant. */
  lemma RemoveKeepsSound(w: World, node: nat)
    requires Sound(w)
    ensures Sound(w.(nodes := WithoutId(w.nodes, node), tasks := DetachedAll(w.tasks, node)))
  {
    var w' := w.(nodes := WithoutId(w.nodes, node), tasks := DetachedAll(w.tasks, node));
    forall i | 0 <= i < |w.tasks| ensures Steady(w.tasks[i], w'.tasks[i]) && RowSound(w', w'.tasks[i]) {
      assert RowSound(w, w.tasks[i]);
      DetachedRow(w, w.tasks[i], node);
    }
    WithoutIdDistinct(w.nodes, node);
    SteadyKeepsSound(w, w');
  }

  lemma {:induction false} WithoutIdDistinct(nodes: seq<Node>, id: nat)
    requires DistinctIds(nodes)
    ensures DistinctIds(WithoutId(nodes, id))
  {
    if nodes != [] {
      var front, last := nodes[..|nodes| - 1], nodes[|nodes| - 1];
      assert nodes == front + [last];
      DistinctSplit(front, last);
      WithoutIdDistinct(front, id);
      DistinctSplit(WithoutId(front, id), last);
    }
  }

  lemma WalletEventsKeepSound(w: World, e: Event)
    requires Sound(w) && Plausible(w, e) && (e.NewOrg? || e.Adjust?)
    ensures Sound(Step(w, e))
  {
    var w' := Step(w, e);
    if e.NewOrg? {
      NobodyCharged(w.ledger.events, e.org);
    } else if e.org in w.funded {
      AdjustIsExact(w.ledger, e.org, e.delta);
    }
    forall i | 0 <= i < |w.tasks| ensures RowSound(w', w'.tasks[i]) {
      assert RowSound(w, w.tasks[i]);
    }
  }

  lemma {:induction false} NobodyCharged(events: seq<UsageEvent>, org: nat)
    requires forall e :: e in events ==> e.org != org
    ensures Charged(events, org) == 0.0
  {
    if events != [] {
      NobodyCharged(events[..|events| - 1], org);
    }
  }

  lemma RequestKeepsSound(w: World, e: Event)
    requires Sound(w) && (e.Create? || e.Retry? || e.Cancel?)
    ensures Sound(Step(w, e))
  {
    match e
    case Create(wish, source, org, snap, skillIds) =>
      if source in Sources(w, wish.kind) {
        NewTaskKeepsSound(w, NewTask(wish, source, org, snap, skillIds, w.now));
      }
    case Retry(id, allowed) =>
      if id < |w.tasks| && Retriable(w, w.tasks[id]) {
        RowKeepsSound(w, id, Retried(w.tasks[id], w.now));
      }
    case Cancel(id) =>
      if id < |w.tasks| && w.tasks[id].status == Queued {
        assert RowSound(w, w.tasks[id]);
        RowKeepsSound(w, id, w.tasks[id].(status := Errored, error := Some(Canceled)));
      }
    case _ =>
  }

  /** Every step keeps the invariant. */
  lemma StepKeepsSound(w: World, e: Event)
    requires Sound(w) && Plausible(w, e)
    ensures Sound(Step(w, e))
  {
    match e
    case Create(_, _, _, _, _) => RequestKeepsSound(w, e);
    case Poll(id, answer) => if id < |w.tasks| { PollKeepsSound(w, id, answer); }
    case Try(id, replies, tooLong) => if id < |w.tasks| { DispatchKeepsSound(w, id, replies, tooLong); }
    case Recover(id, answer) => if id < |w.tasks| { RecoverKeepsSound(w, id, answer); }
    case Retry(_, _) => RequestKeepsSound(w, e);
    case Cancel(_) => RequestKeepsSound(w, e);
    case Delete(kind, source) => DeleteKeepsSound(w, kind, source);
    case Withdraw(ids, code) => WithdrawKeepsSound(w, ids, code);
    case Remediate(before, after, focus, wish) => RemediateKeepsSound(w, before, after, focus, wish);
    case RemoveNode(node) => RemoveKeepsSound(w, node);
    case NewOrg(_, _) => WalletEventsKeepSound(w, e);
    case Adjust(_, _) => WalletEventsKeepSound(w, e);
    case _ => QuietKeepsSound(w, e);
  }

  lemma QuietKeepsSound(w: World, e: Event)
    requires Sound(w) && Plausible(w, e) && (e.AddAudio? || e.SetNodes? || e.SetSkills? || e.Wait?)
    ensures Sound(Step(w, e))
  {
    var w' := Step(w, e);
    forall i | 0 <= i < |w.tasks| ensures RowSound(w', w'.tasks[i]) {
      assert RowSound(w, w.tasks[i]);
    }
    SteadyKeepsSound(w, w');
  }

  // ------------------------------------------------------------------ runs

  ghost predicate Empty(w: World) {
    && w.tasks == [] && w.ledger == Ledger(map[], []) && w.funded == map[]
    && w.prices == [] && w.completions == multiset{} && w.chained == [] && DistinctIds(w.nodes)
    && w.audios == {} && w.transcripts == {} && w.summaries == {}
  }

  lemma {:induction false} RunKeepsSound(w: World, events: seq<Event>)
    requires (Empty(w) || Sound(w)) && PlausibleRun(w, events)
    ensures Sound(Run(w, events))
    decreases |events|
  {
    if events != [] {
      RunKeepsSound(w, events[..|events| - 1]);
      StepKeepsSound(Run(w, events[..|events| - 1]), events[|events| - 1]);
    }
  }

  /** What holds of the tasks, their follow-ups and the wallets after any run from an empty hub. */
  lemma EveryRun(w: World, events: seq<Event>)
    requires Empty(w) && PlausibleRun(w, events)
    ensures var s := Run(w, events);
            && (forall id :: 0 <= id < |s.tasks| ==>
                  var t := s.tasks[id];
                  && (t.workerTask.Some? ==> t.status == Running && t.worker.Some?)
                  && (t.status == Queued ==> t.workerTask.None? && t.worker.None?)
                  && s.completions[id] == (if t.status == Succeeded then 1 else 0)
                  && EventsOf(s.ledger.events, id) == (if t.billed then 1 else 0)
                  && (t.status == Succeeded && t.wish.kind == Transcribe && t.skills != [] <==> t.followUp.Some?))
            && (forall i, j :: 0 <= i < j < |s.chained| ==> s.chained[i].0 != s.chained[j].0)
            && (forall o :: o in s.ledger.balances ==>
                  && o in s.funded && IsMoney(s.ledger.balances[o])
                  && s.ledger.balances[o] == s.funded[o] - Charged(s.ledger.events, o))
            && |s.prices| == |s.ledger.events|
            && (forall i :: 0 <= i < |s.prices| ==> Fair(s.ledger.events[i].amount, s.prices[i]))
  {
    RunKeepsSound(w, events);
    var s := Run(w, events);
    forall id | 0 <= id < |s.tasks| ensures RowSound(s, s.tasks[id]) {
    }
  }

  /** How a row may look later: success is for good, and without its source it never gets there. */
  ghost predicate RowEvolves(t: Task, t': Task) {
    && t'.wish.kind == t.wish.kind && t'.skills == t.skills && t'.org == t.org && t'.snap == t.snap
    && (t.status == Succeeded ==> t'.status == Succeeded && t'.followUp == t.followUp)
    && (t.billed ==> t'.billed)
    && (t.source.None? ==> t'.source.None? && (t'.status == Succeeded ==> t.status == Succeeded))
  }

  ghost predicate Evolves(w: World, w': World, id: nat) {
    id < |w.tasks| <= |w'.tasks| && RowEvolves(w.tasks[id], w'.tasks[id])
  }

  lemma ReportEvolves(w: World, id: nat, status: WorkerStatus, i: nat)
    requires Sound(w) && id < |w.tasks| && w.tasks[id].status == Running && i < |w.tasks|
    ensures Evolves(w, Reported(w, id, status), i)
  {
  }

  lemma OfferedEvolves(w: World, id: nat, o: Offering, i: nat)
    requires Sound(w) && id < |w.tasks| && w.tasks[id].status == Queued && i < |w.tasks|
    requires o.outcome.AcceptedBy? ==> HasSource(w, w.tasks[id])
    ensures Evolves(w, Offered(w, id, o), i)
  {
    OfferedKeepsSound(w, id, o);
    PlacedEvolves(w.tasks[id], o);
    if o.outcome.AcceptedBy? {
      ReportEvolves(w.(tasks := w.tasks[id := Placed(w.tasks[id], o)]), id, o.outcome.status, i);
    }
  }

  lemma DispatchEvolves(w: World, id: nat, replies: nat -> Reply, tooLong: bool, i: nat)
    requires Sound(w) && id < |w.tasks| && i < |w.tasks|
    ensures Evolves(w, DispatchStep(w, id, replies, tooLong), i)
  {
    var t := w.tasks[id];
    if t.status == Queued && PoolOf(w.nodes, t.wish) != Waiting && !TimesOut(w, t) {
      AcceptedHasSource(w, t, replies, tooLong);
      OfferedEvolves(w, id, OfferingOf(w, t, replies, tooLong), i);
    }
  }

  lemma PlacedEvolves(t: Task, o: Offering)
    requires t.status == Queued
    ensures RowEvolves(t, Placed(t, o))
  {
  }

  lemma RowEvolvesAlone(w: World, id: nat, t': Task, i: nat)
    requires id < |w.tasks| && i < |w.tasks| && RowEvolves(w.tasks[id], t')
    ensures Evolves(w, w.(tasks := w.tasks[id := t']), i)
  {
  }

  lemma PollEvolves(w: World, id: nat, answer: Answer, i: nat)
    requires Sound(w) && id < |w.tasks| && i < |w.tasks|
    ensures Evolves(w, PollStep(w, id, answer), i)
  {
    var t := w.tasks[id];
    if t.status == Running {
      RowEvolvesAlone(w, id, Requeued(t), i);
      RowEvolvesAlone(w, id, Lost(t), i);
      if answer.Answered? {
        ReportEvolves(w, id, answer.status, i);
      }
    }
  }

  lemma RecoverEvolves(w: World, id: nat, answer: Answer, i: nat)
    requires Sound(w) && id < |w.tasks| && i < |w.tasks|
    ensures Evolves(w, RecoverStep(w, id, answer), i)
  {
    var t := w.tasks[id];
    if t.status == Running {
      RowEvolvesAlone(w, id, Requeued(t), i);
      RowEvolvesAlone(w, id, Lost(t), i);
      if answer.Answered? {
        ReportEvolves(w, id, answer.status, i);
      }
    }
  }

  lemma DeleteEvolves(w: World, kind: Kind, doc: nat, id: nat)
    requires Sound(w) && id < |w.tasks|
    ensures Evolves(w, Deleted(w, kind, doc), id)
  {
    assert RowSound(w, w.tasks[id]);
    StoppedRow(w, w.tasks[id], Canceled, SourceDeleted);
  }

  lemma WithdrawEvolves(w: World, ids: set<nat>, code: Withdrawal, id: nat)
    requires Sound(w) && id < |w.tasks|
    ensures Evolves(w, w.(tasks := WithdrawnAll(w.tasks, ids, code)), id)
  {
    assert RowSound(w, w.tasks[id]);
    StoppedRow(w, w.tasks[id], code, code);
  }

  lemma NodeRequestsEvolve(w: World, e: Event, id: nat)
    requires Sound(w) && id < |w.tasks| && (e.Remediate? || e.RemoveNode?)
    ensures Evolves(w, Step(w, e), id)
  {
    assert RowSound(w, w.tasks[id]);
    if e.RemoveNode? {
      DetachedRow(w, w.tasks[id], e.node);
    } else if Moved(w.tasks[id], e.before, e.after, e.focus, e.wish) {
      RemodelledRow(w, w.tasks[id], e.wish);
    }
  }

  /** A task without its source is not retried. */
  lemma RetryEvolves(w: World, id: nat, allowed: bool, i: nat)
    requires i < |w.tasks|
    ensures Evolves(w, Step(w, Retry(id, allowed)), i)
  {
  }

  lemma PlainEvolves(w: World, e: Event, id: nat)
    requires id < |w.tasks| && !e.Poll? && !e.Recover? && !e.Try? && !e.Delete? && !e.Withdraw? && !e.Retry?
    requires !e.Remediate? && !e.RemoveNode?
    ensures Evolves(w, Step(w, e), id)
  {
  }

  lemma StepEvolves(w: World, e: Event, id: nat)
    requires Sound(w) && id < |w.tasks|
    ensures Evolves(w, Step(w, e), id)
  {
    if e.Poll? {
      if e.id < |w.tasks| { PollEvolves(w, e.id, e.answer, id); }
    } else if e.Recover? {
      if e.id < |w.tasks| { RecoverEvolves(w, e.id, e.answer, id); }
    } else if e.Try? {
      if e.id < |w.tasks| { DispatchEvolves(w, e.id, e.replies, e.tooLong, id); }
    } else if e.Delete? {
      DeleteEvolves(w, e.kind, e.source, id);
    } else if e.Withdraw? {
      WithdrawEvolves(w, e.ids, e.code, id);
    } else if e.Retry? {
      RetryEvolves(w, e.id, e.allowed, id);
    } else if e.Remediate? || e.RemoveNode? {
      NodeRequestsEvolve(w, e, id);
    } else {
      PlainEvolves(w, e, id);
    }
  }

  /** Success is absorbing, and a task that has lost its source never succeeds, in any run. */
  lemma {:induction false} RunEvolves(w: World, events: seq<Event>, id: nat)
    requires Sound(w) && PlausibleRun(w, events) && id < |w.tasks|
    ensures Evolves(w, Run(w, events), id)
    decreases |events|
  {
    if events != [] {
      var before := events[..|events| - 1];
      RunEvolves(w, before, id);
      RunKeepsSound(w, before);
      StepEvolves(Run(w, before), events[|events| - 1], id);
    }
  }

  /**
    After a source is deleted, no run saves another result of a task that had it: a success there is
    one from before.
   */
  lemma NothingSavedAfterDeletion(w: World, kind: Kind, source: nat, events: seq<Event>, id: nat)
    requires Sound(w) && source in Sources(w, kind)
    requires id < |w.tasks| && w.tasks[id].wish.kind == kind && w.tasks[id].source == Some(source)
    requires PlausibleRun(Step(w, Delete(kind, source)), events)
    ensures var s := Run(Step(w, Delete(kind, source)), events);
            && id < |s.tasks| && s.completions[id] == w.completions[id]
            && (s.tasks[id].status == Succeeded ==> w.tasks[id].status == Succeeded)
  {
    var d := Step(w, Delete(kind, source));
    StepKeepsSound(w, Delete(kind, source));
    DeletedTask(w, kind, source, id);
    RunKeepsSound(d, events);
    RunEvolves(d, events, id);
    RunEvolvesAfter(w, d, Run(d, events), id);
  }

  lemma DeletedTask(w: World, kind: Kind, source: nat, id: nat)
    requires id < |w.tasks| && w.tasks[id].wish.kind == kind && w.tasks[id].source == Some(source)
    ensures var d := Deleted(w, kind, source);
            && |d.tasks| == |w.tasks| && d.tasks[id].source.None?
            && (d.tasks[id].status == Succeeded <==> w.tasks[id].status == Succeeded)
  {
  }

  lemma RunEvolvesAfter(w: World, d: World, s: World, id: nat)
    requires SuccessSound(w) && SuccessSound(s) && Evolves(d, s, id) && id < |w.tasks|
    requires d.tasks[id].source.None? && (d.tasks[id].status == Succeeded <==> w.tasks[id].status == Succeeded)
    ensures s.completions[id] == w.completions[id]
  {
  }

  // ------------------------------------------------------------------ the dispatch timeout

  /** The step shows the task a waiting pool, a full queue or a missing engine. */
  ghost predicate Sighting(w: World, e: Event, id: nat) {
    && e.Try? && e.id == id && id < |w.tasks| && w.tasks[id].status == Queued
    && (PoolOf(w.nodes, w.tasks[id].wish) == Waiting
        || (!TimesOut(w, w.tasks[id])
            && var o := OfferingOf(w, w.tasks[id], e.replies, e.tooLong);
               exists i :: 0 <= i < |o.posts| && GivesUpTimeout(e.replies(o.posts[i].id))))
  }

  /** The task is created, retried, or moved to other models by a request on a node. */
  predicate StartsOver(w: World, e: Event, id: nat) {
    || id >= |w.tasks|
    || (e.Retry? && e.id == id && e.allowed && Retriable(w, w.tasks[id]))
    || (e.Remediate? && Models(e.wish) in e.after && Moved(w.tasks[id], e.before, e.after, e.focus, e.wish))
  }

  /** What the task has been shown since it was created, retried or moved. */
  ghost predicate SeenSince(w: World, events: seq<Event>, id: nat)
    decreases |events|
  {
    if events == [] then id < |w.tasks| && w.tasks[id].noTimeout
    else
      var before, e := events[..|events| - 1], events[|events| - 1];
      !StartsOver(Run(w, before), e, id) && (SeenSince(w, before, id) || Sighting(Run(w, before), e, id))
  }

  lemma ReportKeepsFlags(w: World, id: nat, status: WorkerStatus, i: nat)
    requires id < |w.tasks| && i < |Reported(w, id, status).tasks|
    ensures Reported(w, id, status).tasks[i].noTimeout == (i < |w.tasks| && w.tasks[i].noTimeout)
  {
  }

  lemma OfferedFlags(w: World, id: nat, o: Offering, i: nat)
    requires id < |w.tasks| && i < |Offered(w, id, o).tasks|
    ensures Offered(w, id, o).tasks[i].noTimeout <==>
              i < |w.tasks| && (w.tasks[i].noTimeout || (i == id && o.noTimeout))
  {
  }

  lemma DispatchFlags(w: World, id: nat, replies: nat -> Reply, tooLong: bool, i: nat)
    requires id < |w.tasks| && i < |DispatchStep(w, id, replies, tooLong).tasks|
    ensures DispatchStep(w, id, replies, tooLong).tasks[i].noTimeout <==>
              i < |w.tasks| && (w.tasks[i].noTimeout || Sighting(w, Try(id, replies, tooLong), i))
  {
    var t := w.tasks[id];
    if t.status == Queued && PoolOf(w.nodes, t.wish) != Waiting && !TimesOut(w, t) {
      TimeoutGivenUpIff(Rows(w.tasks), Candidates(w.nodes, t.wish), replies, Blocked(w, t, tooLong));
      OfferedFlags(w, id, OfferingOf(w, t, replies, tooLong), i);
    }
  }

  lemma AskFlags(w: World, id: nat, answer: Answer, i: nat)
    requires id < |w.tasks|
    ensures i < |PollStep(w, id, answer).tasks| ==>
              PollStep(w, id, answer).tasks[i].noTimeout == (i < |w.tasks| && w.tasks[i].noTimeout)
    ensures i < |RecoverStep(w, id, answer).tasks| ==>
              RecoverStep(w, id, answer).tasks[i].noTimeout == (i < |w.tasks| && w.tasks[i].noTimeout)
  {
    if answer.Answered? && i < |Reported(w, id, answer.status).tasks| {
      ReportKeepsFlags(w, id, answer.status, i);
    }
  }

  lemma RequestFlags(w: World, e: Event, id: nat)
    requires !e.Poll? && !e.Recover? && !e.Try? && id < |Step(w, e).tasks|
    ensures Step(w, e).tasks[id].noTimeout <==> !StartsOver(w, e, id) && w.tasks[id].noTimeout
  {
  }

  lemma StepFlags(w: World, e: Event, id: nat)
    requires Sound(w) && id < |Step(w, e).tasks|
    ensures Step(w, e).tasks[id].noTimeout <==>
              !StartsOver(w, e, id) && (w.tasks[id].noTimeout || Sighting(w, e, id))
  {
    if e.Poll? {
      if e.id < |w.tasks| { AskFlags(w, e.id, e.answer, id); }
    } else if e.Recover? {
      if e.id < |w.tasks| { AskFlags(w, e.id, e.answer, id); }
    } else if e.Try? {
      if e.id < |w.tasks| { DispatchFlags(w, e.id, e.replies, e.tooLong, id); }
    } else {
      RequestFlags(w, e, id);
    }
  }

  /** The row's flag remembers exactly what the task has seen. */
  lemma {:induction false} FlagIsMemory(w: World, events: seq<Event>, id: nat)
    requires Sound(w) && PlausibleRun(w, events) && id < |Run(w, events).tasks|
    ensures Run(w, events).tasks[id].noTimeout <==> SeenSince(w, events, id)
    decreases |events|
  {
    if events != [] {
      var before := events[..|events| - 1];
      RunKeepsSound(w, before);
      StepFlags(Run(w, before), events[|events| - 1], id);
      if id < |Run(w, before).tasks| {
        FlagIsMemory(w, before, id);
      }
    }
  }

  /** Only an attempt to dispatch the task itself can record a timeout, and only by its own rule. */
  lemma DispatchTimesOutIff(w: World, id: nat, replies: nat -> Reply, tooLong: bool, i: nat)
    requires Sound(w) && id < |w.tasks| && i < |w.tasks| && w.tasks[i].error != Some(DispatchTimeout)
    requires i < |DispatchStep(w, id, replies, tooLong).tasks|
    ensures DispatchStep(w, id, replies, tooLong).tasks[i].error == Some(DispatchTimeout) <==>
              i == id && w.tasks[id].status == Queued && TimesOut(w, w.tasks[id])
  {
    var t := w.tasks[id];
    if t.status == Queued && PoolOf(w.nodes, t.wish) != Waiting && !TimesOut(w, t) {
      OfferingNeverTimesOut(w, id, replies, tooLong, i);
    } else {
      UnofferedTimesOutIff(w, id, replies, tooLong, i);
    }
  }

  lemma OfferingNeverTimesOut(w: World, id: nat, replies: nat -> Reply, tooLong: bool, i: nat)
    requires Sound(w) && id < |w.tasks| && i < |w.tasks| && w.tasks[i].error != Some(DispatchTimeout)
    requires var t := w.tasks[id]; t.status == Queued && PoolOf(w.nodes, t.wish) != Waiting && !TimesOut(w, t)
    ensures var w' := DispatchStep(w, id, replies, tooLong);
            i < |w'.tasks| && w'.tasks[i].error != Some(DispatchTimeout)
  {
    var t := w.tasks[id];
    assert RowSound(w, t);
    NotATimeout(w, t, replies, tooLong);
    OfferedNeverTimesOut(w, id, OfferingOf(w, t, replies, tooLong), i);
  }

  lemma UnofferedTimesOutIff(w: World, id: nat, replies: nat -> Reply, tooLong: bool, i: nat)
    requires id < |w.tasks| && i < |w.tasks| && w.tasks[i].error != Some(DispatchTimeout)
    requires var t := w.tasks[id]; t.status != Queued || PoolOf(w.nodes, t.wish) == Waiting || TimesOut(w, t)
    ensures var w' := DispatchStep(w, id, replies, tooLong);
            |w'.tasks| == |w.tasks| && (w'.tasks[i].error == Some(DispatchTimeout) <==>
                                          i == id && w.tasks[id].status == Queued && TimesOut(w, w.tasks[id]))
  {
  }

  lemma OfferedNeverTimesOut(w: World, id: nat, o: Offering, i: nat)
    requires id < |w.tasks| && w.tasks[id].skipReason != Some(DispatchTimeout) && o.outcome != Failed(DispatchTimeout)
    requires i < |w.tasks| && w.tasks[i].error != Some(DispatchTimeout)
    ensures i < |Offered(w, id, o).tasks| && Offered(w, id, o).tasks[i].error != Some(DispatchTimeout)
  {
    if o.outcome.AcceptedBy? {
      ReportNeverTimesOut(w.(tasks := w.tasks[id := Placed(w.tasks[id], o)]), id, o.outcome.status, i);
    }
  }

  lemma ReportNeverTimesOut(w: World, id: nat, status: WorkerStatus, i: nat)
    requires id < |w.tasks| && i < |w.tasks| && w.tasks[i].error != Some(DispatchTimeout)
    requires w.tasks[id].skipReason != Some(DispatchTimeout)
    ensures i < |Reported(w, id, status).tasks| && Reported(w, id, status).tasks[i].error != Some(DispatchTimeout)
  {
  }

  lemma PollNeverTimesOut(w: World, id: nat, answer: Answer, i: nat)
    requires Sound(w) && id < |w.tasks| && i < |w.tasks| && w.tasks[i].error != Some(DispatchTimeout)
    ensures i < |PollStep(w, id, answer).tasks| && PollStep(w, id, answer).tasks[i].error != Some(DispatchTimeout)
  {
    if answer.Answered? {
      assert RowSound(w, w.tasks[id]);
      ReportNeverTimesOut(w, id, answer.status, i);
    }
  }

  lemma RecoverNeverTimesOut(w: World, id: nat, answer: Answer, i: nat)
    requires Sound(w) && id < |w.tasks| && i < |w.tasks| && w.tasks[i].error != Some(DispatchTimeout)
    ensures i < |RecoverStep(w, id, answer).tasks| && RecoverStep(w, id, answer).tasks[i].error != Some(DispatchTimeout)
  {
    if answer.Answered? {
      assert RowSound(w, w.tasks[id]);
      ReportNeverTimesOut(w, id, answer.status, i);
    }
  }

  lemma RequestsNeverTimeOut(w: World, e: Event, id: nat)
    requires !e.Try? && !e.Poll? && !e.Recover? && id < |w.tasks| && w.tasks[id].error != Some(DispatchTimeout)
    ensures id < |Step(w, e).tasks| && Step(w, e).tasks[id].error != Some(DispatchTimeout)
  {
  }

  lemma OthersNeverTimeOut(w: World, e: Event, id: nat)
    requires Sound(w) && !e.Try? && id < |w.tasks| && w.tasks[id].error != Some(DispatchTimeout)
    ensures id < |Step(w, e).tasks| && Step(w, e).tasks[id].error != Some(DispatchTimeout)
  {
    if e.Poll? {
      if e.id < |w.tasks| { PollNeverTimesOut(w, e.id, e.answer, id); }
    } else if e.Recover? {
      if e.id < |w.tasks| { RecoverNeverTimesOut(w, e.id, e.answer, id); }
    } else {
      RequestsNeverTimeOut(w, e, id);
    }
  }

  /**
    `dispatch_timeout` is recorded for a task exactly when it is tried in the queue, has waited long
    enough, and neither finds a candidate now nor has seen a waiting pool, a full queue or a missing
    engine since it was created, last retried or last moved to other models.
   */
  lemma TimeoutIff(w: World, events: seq<Event>, e: Event, id: nat)
    requires Sound(w) && PlausibleRun(w, events) && id < |Run(w, events).tasks|
    requires Run(w, events).tasks[id].error != Some(DispatchTimeout)
    ensures var s := Run(w, events);
            id < |Step(s, e).tasks|
            && (Step(s, e).tasks[id].error == Some(DispatchTimeout) <==>
                  && e.Try? && e.id == id && s.tasks[id].status == Queued
                  && s.timeoutSec > 0 && s.now - s.tasks[id].queuedAt >= s.timeoutSec
                  && PoolOf(s.nodes, s.tasks[id].wish) != Waiting && Candidates(s.nodes, s.tasks[id].wish) == []
                  && !SeenSince(w, events, id))
  {
    var s := Run(w, events);
    RunKeepsSound(w, events);
    FlagIsMemory(w, events, id);
    StepEvolves(s, e, id);
    PoolsAndCandidates(s.nodes, s.tasks[id].wish);
    if e.Try? {
      if e.id < |s.tasks| {
        DispatchTimesOutIff(s, e.id, e.replies, e.tooLong, id);
      }
    } else {
      OthersNeverTimeOut(s, e, id);
    }
  }
}
