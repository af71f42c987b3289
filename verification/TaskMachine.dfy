/** The queue of transcribe and summarize tasks as a machine over its committed steps. */
module TaskMachine {
  import opened Prelude
  import opened Money
  import opened Billing
  import opened Dispatch

  datatype Status = Queued | Running | Succeeded | Errored

  /** A task row. `source` is its audio or transcript, `wish` its kind and models. */
  datatype Task = Task(
    wish: Wish, status: Status, error: Option<ErrorCode>, worker: Option<nat>, workerTask: Option<string>,
    source: Option<nat>, org: nat, snap: Snapshot, skills: seq<nat>, produced: Option<nat>, followUp: Option<nat>,
    billed: bool, noTimeout: bool, skip: bool, skipReason: Option<ErrorCode>, queuedAt: int)

  /**
    The database, the clock and the configured timeout. A task's id is its place in `tasks`; new audios,
    transcripts and summaries are numbered by `nextDoc`. Four fields record history for the
    statements below: money put into each wallet, the raw price behind each usage event, tasks that
    entered success, and pairs of a transcribe task and the summarize task chained to it.
   */
  datatype World = World(
    tasks: seq<Task>, audios: set<nat>, transcripts: set<nat>, summaries: set<nat>, nextDoc: nat,
    skills: set<nat>, nodes: seq<Node>, ledger: Ledger, now: int, timeoutSec: int,
    funded: map<nat, real>, prices: seq<real>, completions: multiset<nat>, chained: seq<(nat, nat)>)

  /** What asking a worker for a task returns or raises. */
  datatype Answer = NoContact | Http404 | Http5xx | Answered(status: WorkerStatus)

  const NON_RETRIABLE: set<ErrorCode> := {Canceled, SourceDeleted, TextTooLong, PayloadTooLarge, InvalidFile}

  // ------------------------------------------------------------------ one row

  function NewTask(wish: Wish, source: nat, org: nat, snap: Snapshot, skills: seq<nat>, now: int): Task {
    Task(wish, Queued, None, None, None, Some(source), org, snap, skills, None, None, false, false, false, None, now)
  }

  function Failing(t: Task, code: ErrorCode): Task {
    t.(status := Errored, error := Some(code), worker := None, workerTask := None)
  }

  function Requeued(t: Task): Task {
    t.(status := Queued, worker := None, workerTask := None)
  }

  /** Stop a live task: at once while it only waits, otherwise by forbidding it to save its result. */
  function Stopped(t: Task, code: ErrorCode, reason: ErrorCode): Task {
    if t.status != Queued && t.status != Running then t
    else if t.status == Queued && t.workerTask.None? then t.(status := Errored, error := Some(code))
    else t.(skip := true, skipReason := Some(reason))
  }

  function Retried(t: Task, now: int): Task {
    t.(status := Queued, error := None, worker := None, workerTask := None, produced := None,
       noTimeout := false, skip := false, skipReason := None, queuedAt := now)
  }

  predicate Retriable(w: World, t: Task) {
    t.status == Errored && t.error.Some? && t.error.value !in NON_RETRIABLE && HasSource(w, t)
  }

  predicate HasSource(w: World, t: Task) {
    t.source.Some? && t.source.value in Sources(w, t.wish.kind)
  }

  function Sources(w: World, kind: Kind): set<nat> {
    if kind == Transcribe then w.audios else w.transcripts
  }

  /** What a result costs before rounding, by the tariff the row carries. */
  function RawPrice(t: Task, audioSec: real, chars: nat): real {
    if t.wish.kind == Transcribe then TranscribePrice(t.snap, audioSec) else SummarizePrice(t.snap, chars)
  }

  function Amount(t: Task, audioSec: real, chars: nat): real {
    if t.wish.kind == Transcribe then TranscribeAmount(t.snap, audioSec) else SummarizeAmount(t.snap, chars)
  }

  // ------------------------------------------------------------------ a result arrives

  /** The saved result a completion leaves on the row: none if saving is forbidden. */
  function Saved(w: World, t: Task): Option<nat> {
    if t.skip then t.produced else Some(w.nextDoc)
  }

  predicate Chains(w: World, t: Task) {
    t.wish.kind == Transcribe && t.skills != [] && Saved(w, t).Some?
  }

  /** The summarize task chained to a transcription that names skills. */
  function ChildOf(w: World, t: Task): Task
    requires Saved(w, t).Some?
  {
    NewTask(Wish(Summarize, "", "", ""), Saved(w, t).value, t.org, t.snap, t.skills, w.now)
  }

  predicate Chargeable(w: World, t: Task) {
    t.org in w.ledger.balances && !t.billed
  }

  function CompletedRow(w: World, id: nat): Task
    requires id < |w.tasks|
  {
    var t := w.tasks[id];
    t.(status := if t.skip then Errored else Succeeded,
       error := if !t.skip then None else if t.skipReason.Some? then t.skipReason else Some(SourceDeleted),
       worker := None, workerTask := None, produced := Saved(w, t),
       followUp := if Chains(w, t) then Some(|w.tasks|) else t.followUp,
       billed := t.billed || t.org in w.ledger.balances)
  }

  /** What a worker's result leaves: saved or refused, charged either way, and perhaps chained. */
  function Completed(w: World, id: nat, audioSec: real, chars: nat): World
    requires id < |w.tasks|
  {
    var t := w.tasks[id];
    w.(tasks := w.tasks[id := CompletedRow(w, id)] + (if Chains(w, t) then [ChildOf(w, t)] else []),
       chained := w.chained + (if Chains(w, t) then [(id, |w.tasks|)] else []),
       completions := if t.skip then w.completions else w.completions + multiset{id},
       transcripts := if !t.skip && t.wish.kind == Transcribe then w.transcripts + {w.nextDoc} else w.transcripts,
       summaries := if !t.skip && t.wish.kind == Summarize then w.summaries + {w.nextDoc} else w.summaries,
       nextDoc := if t.skip then w.nextDoc else w.nextDoc + 1,
       prices := if Chargeable(w, t) then w.prices + [RawPrice(t, audioSec, chars)] else w.prices,
       ledger := if Chargeable(w, t)
                 then Charge(w.ledger, t.org, id, t.snap.unlimited, Amount(t, audioSec, chars)) else w.ledger)
  }

  /** A worker's status for a task it holds. */
  function Reported(w: World, id: nat, status: WorkerStatus): World
    requires id < |w.tasks|
  {
    match status
    case WorkerSuccess(audioSec, chars) => Completed(w, id, audioSec, chars)
    case WorkerError(code) => w.(tasks := w.tasks[id := Failing(w.tasks[id], MapWorkerError(code))])
    case _ => w
  }

  // ------------------------------------------------------------------ the dispatcher's steps

  predicate NodeKnown(w: World, t: Task) {
    t.worker.Some? && exists n :: n in w.nodes && n.id == t.worker.value
  }

  /** 404 from the worker: a task with a saved result is only detached, any other is queued again. */
  function Lost(t: Task): Task {
    if t.status == Succeeded || t.produced.Some? then t.(worker := None, workerTask := None) else Requeued(t)
  }

  function PollStep(w: World, id: nat, answer: Answer): World
    requires id < |w.tasks|
  {
    var t := w.tasks[id];
    if t.status != Running || t.workerTask.None? then w
    else if !NodeKnown(w, t) then w.(tasks := w.tasks[id := Requeued(t)])
    else match answer
      case NoContact => w
      case Http404 => w.(tasks := w.tasks[id := Lost(t)])
      case Http5xx => w
      case Answered(status) => Reported(w, id, status)
  }

  /** The same question after a restart: whatever is unclear queues the task again. */
  function RecoverStep(w: World, id: nat, answer: Answer): World
    requires id < |w.tasks|
  {
    var t := w.tasks[id];
    if t.status != Running then w
    else if t.workerTask.None? || !NodeKnown(w, t) then w.(tasks := w.tasks[id := Requeued(t)])
    else match answer
      case NoContact => w.(tasks := w.tasks[id := Requeued(t)])
      case Http404 => w.(tasks := w.tasks[id := Lost(t)])
      case Http5xx => w.(tasks := w.tasks[id := Requeued(t)])
      case Answered(status) =>
        if status.WorkerUnclear? then w.(tasks := w.tasks[id := Requeued(t)]) else Reported(w, id, status)
  }

  predicate TimesOut(w: World, t: Task) {
    && !t.noTimeout && PoolOf(w.nodes, t.wish) == Empty && w.timeoutSec > 0
    && w.now - t.queuedAt >= w.timeoutSec
  }

  /** Why the task cannot be posted at all. */
  function Blocked(w: World, t: Task, tooLong: bool): Option<ErrorCode> {
    if !HasSource(w, t) then Some(SourceDeleted)
    else if t.wish.kind == Transcribe then None
    else if exists s :: s in t.skills && s !in w.skills then Some(NotFound)
    else if tooLong then Some(TextTooLong)
    else None
  }

  function Rows(tasks: seq<Task>): (rows: seq<Assignment>)
  {
    seq(|tasks|, i requires 0 <= i < |tasks| =>
      Assignment(tasks[i].worker, tasks[i].status == Queued || tasks[i].status == Running, tasks[i].workerTask.Some?))
  }

  function OfferingOf(w: World, t: Task, replies: nat -> Reply, tooLong: bool): Offering {
    Offer(Rows(w.tasks), Candidates(w.nodes, t.wish), replies, Blocked(w, t, tooLong))
  }

  function Placed(t: Task, o: Offering): Task {
    var marked := t.(noTimeout := t.noTimeout || o.noTimeout);
    match o.outcome
    case NotPlaced => marked
    case Failed(code) => Failing(marked, code)
    case AcceptedBy(n, workerTask, _) => marked.(worker := Some(n.id), workerTask := workerTask, status := Running)
  }

  /** What an offering leaves; the accepting worker may already have finished. */
  function Offered(w: World, id: nat, o: Offering): World
    requires id < |w.tasks|
  {
    var placed := w.(tasks := w.tasks[id := Placed(w.tasks[id], o)]);
    if o.outcome.AcceptedBy? then Reported(placed, id, o.outcome.status) else placed
  }

  function DispatchStep(w: World, id: nat, replies: nat -> Reply, tooLong: bool): World
    requires id < |w.tasks|
  {
    var t := w.tasks[id];
    if t.status != Queued then w
    else if PoolOf(w.nodes, t.wish) == Waiting then w.(tasks := w.tasks[id := t.(noTimeout := true)])
    else if TimesOut(w, t) then w.(tasks := w.tasks[id := Failing(t, DispatchTimeout)])
    else Offered(w, id, OfferingOf(w, t, replies, tooLong))
  }

  // ------------------------------------------------------------------ requests

  /** Every task of a kind with the given source is stopped. */
  function StoppedFor(tasks: seq<Task>, kind: Kind, source: nat): (out: seq<Task>)
  {
    seq(|tasks|, i requires 0 <= i < |tasks| =>
      if tasks[i].wish.kind == kind && tasks[i].source == Some(source)
      then Stopped(tasks[i], Canceled, SourceDeleted) else tasks[i])
  }

  /** The foreign keys of a deleted audio or transcript become null. */
  function Orphaned(t: Task, kind: Kind, doc: nat): Task {
    t.(source := if t.wish.kind == kind && t.source == Some(doc) then None else t.source,
       produced := if kind == Summarize && t.wish.kind == Transcribe && t.produced == Some(doc) then None
                   else t.produced)
  }

  function OrphanedAll(tasks: seq<Task>, kind: Kind, doc: nat): (out: seq<Task>)
  {
    seq(|tasks|, i requires 0 <= i < |tasks| => Orphaned(tasks[i], kind, doc))
  }

  function Deleted(w: World, kind: Kind, doc: nat): World {
    w.(tasks := OrphanedAll(StoppedFor(w.tasks, kind, doc), kind, doc),
       audios := if kind == Transcribe then w.audios - {doc} else w.audios,
       transcripts := if kind == Summarize then w.transcripts - {doc} else w.transcripts)
  }

  /** Why the live tasks of a user or an organization are stopped. */
  const WITHDRAWALS: set<ErrorCode> := {AccountWiped, AccountDeleted, OrgDeleted}

  type Withdrawal = code: ErrorCode | code in WITHDRAWALS witness AccountWiped

  function WithdrawnAll(tasks: seq<Task>, ids: set<nat>, code: Withdrawal): (out: seq<Task>)
  {
    seq(|tasks|, i requires 0 <= i < |tasks| =>
      if i in ids then Stopped(tasks[i], code, code) else tasks[i])
  }

  // ------------------------------------------------------------------ requests on worker nodes

  /** The part of a wish that nodes are compared by. */
  function Models(wish: Wish): Wish {
    if wish.kind == Transcribe then Wish(Transcribe, wish.asr, wish.diar, "")
    else Wish(Summarize, "", "", wish.model)
  }

  /**
    A live task is moved to other models if its own are lost, or if it runs on the node in question.
    A summary without a model is moved only off that node.
   */
  predicate Moved(t: Task, before: set<Wish>, after: set<Wish>, focus: nat, wish: Wish) {
    var onWorker := t.worker == Some(focus);
    && t.wish.kind == wish.kind && (t.status == Queued || t.status == Running)
    && match t.wish.kind
       case Transcribe =>
         && (Models(t.wish) !in after || (onWorker && t.status == Running))
         && (Models(t.wish) in before || onWorker)
       case Summarize =>
         if t.wish.model == "" then onWorker
         else Models(t.wish) !in after || (onWorker && t.status == Running)
  }

  /** New models, the timeout counts again, and a running task goes back to the queue. */
  function Remodelled(t: Task, wish: Wish): Task {
    var moved := t.(wish := Models(wish), noTimeout := false);
    if t.status == Running then Requeued(moved) else moved
  }

  function RemodelledAll(tasks: seq<Task>, before: set<Wish>, after: set<Wish>, focus: nat, wish: Wish)
    : (out: seq<Task>)
  {
    seq(|tasks|, i requires 0 <= i < |tasks| =>
      if Moved(tasks[i], before, after, focus, wish) then Remodelled(tasks[i], wish) else tasks[i])
  }

  /** A task whose node is removed loses its worker, but goes on running if it was. */
  function Detached(t: Task, node: nat): Task {
    if t.worker != Some(node) then t
    else t.(worker := None, workerTask := if t.status == Running then None else t.workerTask)
  }

  function DetachedAll(tasks: seq<Task>, node: nat): (out: seq<Task>)
  {
    seq(|tasks|, i requires 0 <= i < |tasks| => Detached(tasks[i], node))
  }

  // ------------------------------------------------------------------ all steps

  datatype Event =
    | Create(wish: Wish, source: nat, org: nat, snap: Snapshot, skillIds: seq<nat>)
    | Poll(id: nat, answer: Answer)
    | Try(id: nat, replies: nat -> Reply, tooLong: bool)
    | Recover(id: nat, answer: Answer)
    | Retry(id: nat, allowed: bool)
    | Cancel(id: nat)
    | Delete(kind: Kind, source: nat)
    | Withdraw(ids: set<nat>, code: Withdrawal)
    | Remediate(before: set<Wish>, after: set<Wish>, focus: nat, wish: Wish)
    | RemoveNode(node: nat)
    | AddAudio
    | SetNodes(nodes: seq<Node>)
    | SetSkills(skills: set<nat>)
    | NewOrg(org: nat, balance: real)
    | Adjust(org: nat, delta: real)
    | Wait(seconds: nat)

  ghost predicate Plausible(w: World, e: Event) {
    match e
    case SetNodes(nodes) => DistinctIds(nodes)
    case NewOrg(org, balance) => org !in w.ledger.balances && IsMoney(balance)
    case _ => true
  }

  function Step(w: World, e: Event): World {
    match e
    case Create(wish, source, org, snap, skillIds) =>
      if source in Sources(w, wish.kind)
      then w.(tasks := w.tasks + [NewTask(wish, source, org, snap, skillIds, w.now)]) else w
    case Poll(id, answer) => if id < |w.tasks| then PollStep(w, id, answer) else w
    case Try(id, replies, tooLong) => if id < |w.tasks| then DispatchStep(w, id, replies, tooLong) else w
    case Recover(id, answer) => if id < |w.tasks| then RecoverStep(w, id, answer) else w
    case Retry(id, allowed) =>
      if id < |w.tasks| && allowed && Retriable(w, w.tasks[id])
      then w.(tasks := w.tasks[id := Retried(w.tasks[id], w.now)]) else w
    case Cancel(id) =>
      if id < |w.tasks| && w.tasks[id].status == Queued && w.tasks[id].workerTask.None?
      then w.(tasks := w.tasks[id := w.tasks[id].(status := Errored, error := Some(Canceled))]) else w
    case Delete(kind, source) => if source in Sources(w, kind) then Deleted(w, kind, source) else w
    case Withdraw(ids, code) => w.(tasks := WithdrawnAll(w.tasks, ids, code))
    case Remediate(before, after, focus, wish) =>
      if Models(wish) in after then w.(tasks := RemodelledAll(w.tasks, before, after, focus, wish)) else w
    case RemoveNode(node) => w.(nodes := WithoutId(w.nodes, node), tasks := DetachedAll(w.tasks, node))
    case AddAudio => w.(audios := w.audios + {w.nextDoc}, nextDoc := w.nextDoc + 1)
    case SetNodes(nodes) => w.(nodes := nodes)
    case SetSkills(skills) => w.(skills := skills)
    case NewOrg(org, balance) =>
      w.(ledger := w.ledger.(balances := w.ledger.balances[org := balance]), funded := w.funded[org := balance])
    case Adjust(org, delta) =>
      if org !in w.ledger.balances || org !in w.funded then w
      else w.(ledger := AdjustWallet(w.ledger, org, delta),
              funded := w.funded[org := w.funded[org] + FloorMoney(delta)])
    case Wait(seconds) => w.(now := w.now + seconds)
  }

  function Run(w: World, events: seq<Event>): World
    decreases |events|
  {
    if events == [] then w else Step(Run(w, events[..|events| - 1]), events[|events| - 1])
  }

  ghost predicate PlausibleRun(w: World, events: seq<Event>)
    decreases |events|
  {
    events == []
    || (PlausibleRun(w, events[..|events| - 1]) && Plausible(Run(w, events[..|events| - 1]), events[|events| - 1]))
  }
}
