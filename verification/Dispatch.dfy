/** Which worker nodes a queued task is offered to, in which order, and what comes of it. */
module Dispatch {
  import opened Prelude

  datatype Kind = Transcribe | Summarize

  datatype ErrorCode =
    | Canceled | SourceDeleted | NotFound | TextTooLong | PayloadTooLarge | InvalidFile
    | PipelineError | EngineUnavailable | QueueFull | TaskRunning | DispatchTimeout
    | AccountWiped | AccountDeleted | OrgDeleted

  /** Empty lists of models, an absent health field and HTTP code 0 stand for missing values. */
  datatype Node = Node(id: nat, enabled: bool, kind: Kind, weight: int,
                       asrModels: seq<string>, diarModels: seq<string>, summarizeModel: Option<string>,
                       http: int, readyHttp: int, engines: map<string, string>)

  datatype Pool = Empty | Waiting | Ready

  /** What a task asks of a node: recognition and speaker models, or a summary model ("" for none). */
  datatype Wish = Wish(kind: Kind, asr: string, diar: string, model: string)

  // ------------------------------------------------------------------ pools and candidates

  predicate Offers(n: Node, w: Wish) {
    n.enabled && n.kind == w.kind
    && match w.kind
       case Transcribe =>
         && (n.asrModels != [] ==> w.asr in n.asrModels)
         && (w.diar != "" && n.diarModels != [] ==> w.diar in n.diarModels)
       case Summarize => w.model == "" || n.summarizeModel.None? || n.summarizeModel.value == w.model
  }

  function EngineState(n: Node, name: string, missing: string): string {
    if name in n.engines then n.engines[name] else missing
  }

  function DiarState(n: Node, w: Wish): string {
    if w.diar == "" then "loaded" else EngineState(n, w.diar, "loaded")
  }

  /** The engines the task needs are loaded, as far as the last health report says. */
  predicate Loaded(n: Node, w: Wish) {
    match w.kind
    case Transcribe => EngineState(n, w.asr, "disabled") == "loaded" && DiarState(n, w) == "loaded"
    case Summarize => n.readyHttp == 200
  }

  predicate Recovering(n: Node, w: Wish) {
    w.kind == Transcribe
    && (n.http != 200
        || EngineState(n, w.asr, "disabled") == "unavailable"
        || (w.diar != "" && DiarState(n, w) == "unavailable"))
  }

  /** Only a transcribing node must also have answered its health probe. */
  predicate Serving(n: Node, w: Wish) {
    Loaded(n, w) && (w.kind == Transcribe ==> n.http == 200)
  }

  /** What the pool is, said of the nodes as a set. */
  function PoolOf(nodes: seq<Node>, w: Wish): Pool {
    if exists n :: n in nodes && Offers(n, w) && Serving(n, w) then Ready
    else if exists n :: n in nodes && Offers(n, w) && Recovering(n, w) then Waiting
    else Empty
  }

  /** The loop over the offering nodes finds the pool's state. */
  method PoolState(nodes: seq<Node>, w: Wish) returns (pool: Pool)
    ensures pool == PoolOf(nodes, w)
  {
    var ready, waiting := false, false;
    for i := 0 to |nodes|
      invariant ready <==> exists n :: n in nodes[..i] && Offers(n, w) && Serving(n, w)
      invariant !ready ==>
                  (waiting <==> exists n :: n in nodes[..i] && Offers(n, w) && Recovering(n, w))
    {
      var n := nodes[i];
      assert nodes[..i + 1] == nodes[..i] + [n];
      if !Offers(n, w) {
        continue;
      }
      if w.kind == Transcribe && n.http != 200 {
        waiting := true;
        continue;
      }
      if Loaded(n, w) {
        ready := true;
        continue;
      }
      if Recovering(n, w) {
        waiting := true;
      }
    }
    assert nodes[..|nodes|] == nodes;
    pool := if ready then Ready else if waiting then Waiting else Empty;
  }

  /** The candidates in table order. */
  function Candidates(nodes: seq<Node>, w: Wish): (out: seq<Node>)
    ensures forall n :: n in out <==> n in nodes && Offers(n, w) && Loaded(n, w)
  {
    if nodes == [] then []
    else
      var last := nodes[|nodes| - 1];
      var rest := Candidates(nodes[..|nodes| - 1], w);
      assert nodes == nodes[..|nodes| - 1] + [last];
      if Offers(last, w) && Loaded(last, w) then rest + [last] else rest
  }

  ghost predicate DistinctIds(nodes: seq<Node>) {
    forall i, j :: 0 <= i < j < |nodes| ==> nodes[i].id != nodes[j].id
  }

  lemma DistinctSplit(front: seq<Node>, last: Node)
    ensures DistinctIds(front + [last]) <==> DistinctIds(front) && forall n :: n in front ==> n.id != last.id
  {
    var all := front + [last];
    assert forall i :: 0 <= i < |front| ==> all[i] == front[i];
    assert all[|front|] == last;
  }

  lemma {:induction false} CandidatesDistinct(nodes: seq<Node>, w: Wish)
    requires DistinctIds(nodes)
    ensures DistinctIds(Candidates(nodes, w))
  {
    if nodes != [] {
      var front, last := nodes[..|nodes| - 1], nodes[|nodes| - 1];
      assert nodes == front + [last];
      DistinctSplit(front, last);
      CandidatesDistinct(front, w);
      DistinctSplit(Candidates(front, w), last);
    }
  }

  /** A ready pool has a candidate, and any candidate makes the pool not empty. */
  lemma PoolsAndCandidates(nodes: seq<Node>, w: Wish)
    ensures PoolOf(nodes, w) == Ready ==> Candidates(nodes, w) != []
    ensures Candidates(nodes, w) != [] ==> PoolOf(nodes, w) != Empty
    ensures PoolOf(nodes, w) != Waiting ==> (PoolOf(nodes, w) == Ready <==> Candidates(nodes, w) != [])
  {
    var out := Candidates(nodes, w);
    if out != [] {
      var n := out[0];
      assert n in out;
      assert Serving(n, w) || Recovering(n, w);
    }
  }

  // ------------------------------------------------------------------ picking by load

  /** The columns of a task row that count toward a node's load. */
  datatype Assignment = Assignment(worker: Option<nat>, active: bool, hasWorkerTask: bool)

  function InFlight(rows: seq<Assignment>, id: nat): nat {
    if rows == [] then 0
    else
      var r := rows[|rows| - 1];
      InFlight(rows[..|rows| - 1], id) + (if Counts(r, id) then 1 else 0)
  }

  predicate Counts(r: Assignment, id: nat) {
    r.worker == Some(id) && r.active && r.hasWorkerTask
  }

  function InFlightRows(rows: seq<Assignment>, id: nat): set<nat> {
    set i: nat | i < |rows| && Counts(rows[i], id)
  }

  /** The load counts each row in flight on the node once, and no other. */
  lemma {:induction false} InFlightIs(rows: seq<Assignment>, id: nat)
    ensures InFlight(rows, id) == |InFlightRows(rows, id)|
  {
    if rows == [] {
      assert InFlightRows(rows, id) == {};
    } else {
      var n := |rows| - 1;
      InFlightIs(rows[..n], id);
      var before := InFlightRows(rows[..n], id);
      assert InFlightRows(rows, id) == if Counts(rows[n], id) then before + {n} else before;
    }
  }

  function Share(rows: seq<Assignment>, n: Node): real {
    InFlight(rows, n.id) as real / Max(n.weight, 1) as real
  }

  /** Lower load for its weight first; among equals the heavier node. */
  predicate NotAfter(rows: seq<Assignment>, a: Node, b: Node) {
    || Share(rows, a) < Share(rows, b)
    || (Share(rows, a) == Share(rows, b) && Max(a.weight, 1) >= Max(b.weight, 1))
  }

  ghost predicate Earlier(nodes: seq<Node>, a: Node, b: Node) {
    exists i, j :: 0 <= i < j < |nodes| && nodes[i] == a && nodes[j] == b
  }

  /** The order of a stable sort by score: a strictly lower score, or an equal one and the earlier row. */
  ghost predicate Ahead(rows: seq<Assignment>, nodes: seq<Node>, a: Node, b: Node) {
    NotAfter(rows, a, b) && (NotAfter(rows, b, a) ==> Earlier(nodes, a, b))
  }

  /** The first of a stable sort by score. */
  function PickNode(rows: seq<Assignment>, nodes: seq<Node>): (n: Node)
    requires nodes != []
    ensures n in nodes
  {
    var last := nodes[|nodes| - 1];
    if |nodes| == 1 then last
    else
      var best := PickNode(rows, nodes[..|nodes| - 1]);
      if NotAfter(rows, best, last) then best else last
  }

  lemma {:induction false} PickedIsAhead(rows: seq<Assignment>, nodes: seq<Node>, m: Node)
    requires nodes != [] && m in nodes && m != PickNode(rows, nodes)
    ensures Ahead(rows, nodes, PickNode(rows, nodes), m)
  {
    if |nodes| > 1 {
      var front, last := nodes[..|nodes| - 1], nodes[|nodes| - 1];
      assert nodes == front + [last];
      var best := PickNode(rows, front);
      var k :| 0 <= k < |front| && front[k] == best;
      assert nodes[k] == best && nodes[|front|] == last;
      if m in front && m != best {
        PickedIsAhead(rows, front, m);
        if Earlier(front, best, m) {
          var i, j :| 0 <= i < j < |front| && front[i] == best && front[j] == m;
          assert nodes[i] == best && nodes[j] == m;
        }
      }
    }
  }

  function WithoutId(nodes: seq<Node>, id: nat): (out: seq<Node>)
    ensures forall n :: n in out <==> n in nodes && n.id != id
    ensures |out| <= |nodes|
    ensures (exists n :: n in nodes && n.id == id) ==> |out| < |nodes|
  {
    if nodes == [] then []
    else
      var last := nodes[|nodes| - 1];
      var rest := WithoutId(nodes[..|nodes| - 1], id);
      assert nodes == nodes[..|nodes| - 1] + [last];
      if last.id == id then rest else rest + [last]
  }

  /** Removing one node keeps the others and their order. */
  lemma {:induction false} WithoutOne(nodes: seq<Node>, n: Node)
    requires DistinctIds(nodes)
    ensures var out := WithoutId(nodes, n.id);
            DistinctIds(out) && |out| == |nodes| - (if exists m :: m in nodes && m.id == n.id then 1 else 0)
  {
    if nodes != [] {
      var front, last := nodes[..|nodes| - 1], nodes[|nodes| - 1];
      assert nodes == front + [last];
      DistinctSplit(front, last);
      WithoutOne(front, n);
      DistinctSplit(WithoutId(front, n.id), last);
    }
  }

  lemma {:induction false} WithoutKeepsOrder(nodes: seq<Node>, id: nat, a: Node, b: Node)
    requires Earlier(WithoutId(nodes, id), a, b)
    ensures Earlier(nodes, a, b)
  {
    var front, last := nodes[..|nodes| - 1], nodes[|nodes| - 1];
    assert nodes == front + [last];
    var rest := WithoutId(front, id);
    var i, j :| 0 <= i < j < |WithoutId(nodes, id)| && WithoutId(nodes, id)[i] == a && WithoutId(nodes, id)[j] == b;
    assert rest[i] == a;
    if j < |rest| {
      assert rest[j] == b;
      WithoutKeepsOrder(front, id, a, b);
      var k, l :| 0 <= k < l < |front| && front[k] == a && front[l] == b;
      assert nodes[k] == a && nodes[l] == b;
    } else {
      assert a in front && b == last;
      var k :| 0 <= k < |front| && front[k] == a;
      assert nodes[k] == a && nodes[|front|] == b;
    }
  }

  // ------------------------------------------------------------------ offering the task

  /** The status in a worker's answer, with the length of the audio or of the summary on success. */
  datatype WorkerStatus =
    | WorkerSuccess(audioSec: real, chars: nat)
    | WorkerError(code: string)
    | WorkerBusy
    | WorkerUnclear

  /** What posting the task to a node returns or raises. */
  datatype Reply =
    | Taken(workerTask: Option<string>, status: WorkerStatus)
    | Busy
    | TooLarge
    | Unreached
    | Refused(code: string)

  function MapWorkerError(code: string): ErrorCode {
    if code == "payload_too_large" then PayloadTooLarge
    else if code == "queue_full" then QueueFull
    else if code == "invalid_file" then InvalidFile
    else if code == "not_found" then NotFound
    else if code == "task_running" then TaskRunning
    else if code == "engine_unavailable" then EngineUnavailable
    else if code == "text_too_long" then TextTooLong
    else PipelineError
  }

  datatype Outcome =
    | AcceptedBy(node: Node, workerTask: Option<string>, status: WorkerStatus)
    | Failed(code: ErrorCode)
    | NotPlaced

  /** The nodes posted to, in order, whether the task gave up its timeout, and how it ended. */
  datatype Offering = Offering(posts: seq<Node>, noTimeout: bool, outcome: Outcome)

  predicate GivesUpTimeout(r: Reply) {
    r.Busy? || (r.Refused? && MapWorkerError(r.code) == EngineUnavailable)
  }

  /** A reply after which the next candidate is tried. */
  predicate PassesOn(r: Reply) {
    r.Busy? || r.TooLarge? || r.Unreached? || GivesUpTimeout(r)
  }

  function Decided(n: Node, r: Reply): Outcome
    requires !PassesOn(r)
  {
    match r
    case Taken(id, status) => AcceptedBy(n, id, status)
    case Refused(code) => Failed(MapWorkerError(code))
  }

  /** The posts: the candidates in score order, up to the first reply that decides. */
  function Posts(rows: seq<Assignment>, remaining: seq<Node>, replies: nat -> Reply): (posts: seq<Node>)
    decreases |remaining|
  {
    if remaining == [] then []
    else
      var n := PickNode(rows, remaining);
      [n] + (if PassesOn(replies(n.id)) then Posts(rows, WithoutId(remaining, n.id), replies) else [])
  }

  function OutcomeOf(candidates: seq<Node>, posts: seq<Node>, replies: nat -> Reply): Outcome {
    if posts != [] && !PassesOn(replies(posts[|posts| - 1].id)) then
      Decided(posts[|posts| - 1], replies(posts[|posts| - 1].id))
    else if candidates != [] && forall n :: n in candidates ==> replies(n.id) == TooLarge then
      Failed(PayloadTooLarge)
    else
      NotPlaced
  }

  /**
    What offering the task to the candidates comes to. `blocked` is the error met while preparing the
    first post: the source or a skill is gone, or the text is too long.
   */
  function Offer(rows: seq<Assignment>, candidates: seq<Node>, replies: nat -> Reply,
                 blocked: Option<ErrorCode>): Offering
  {
    if candidates == [] then Offering([], false, NotPlaced)
    else if blocked.Some? then Offering([], false, Failed(blocked.value))
    else
      var posts := Posts(rows, candidates, replies);
      Offering(posts, exists n :: n in posts && GivesUpTimeout(replies(n.id)), OutcomeOf(candidates, posts, replies))
  }

  lemma DistinctInFront(n: Node, later: seq<Node>)
    requires DistinctIds(later) && forall m :: m in later ==> m.id != n.id
    ensures DistinctIds([n] + later)
  {
  }

  /** No reply reads as a timeout. */
  lemma OfferNeverTimesOut(rows: seq<Assignment>, candidates: seq<Node>, replies: nat -> Reply,
                           blocked: Option<ErrorCode>)
    requires blocked != Some(DispatchTimeout)
    ensures Offer(rows, candidates, replies, blocked).outcome != Failed(DispatchTimeout)
  {
  }

  /** Each candidate is posted to at most once, and on past every reply but the last. */
  lemma {:induction false} PostsAreDistinct(rows: seq<Assignment>, remaining: seq<Node>, replies: nat -> Reply)
    requires DistinctIds(remaining)
    ensures var posts := Posts(rows, remaining, replies);
            && DistinctIds(posts) && (forall n :: n in posts ==> n in remaining)
            && (forall i :: 0 <= i < |posts| - 1 ==> PassesOn(replies(posts[i].id)))
            && (remaining != [] ==> posts != [])
    decreases |remaining|
  {
    if remaining != [] {
      var n := PickNode(rows, remaining);
      if PassesOn(replies(n.id)) {
        var rest := WithoutId(remaining, n.id);
        WithoutOne(remaining, n);
        PostsAreDistinct(rows, rest, replies);
        DistinctInFront(n, Posts(rows, rest, replies));
      }
    }
  }

  ghost predicate InOrder(rows: seq<Assignment>, nodes: seq<Node>, posts: seq<Node>) {
    forall i, j :: 0 <= i < j < |posts| ==> Ahead(rows, nodes, posts[i], posts[j])
  }

  /** The posts go by score: never from a node to one that stands ahead of it. */
  lemma {:induction false} PostsAreOrdered(rows: seq<Assignment>, remaining: seq<Node>, replies: nat -> Reply)
    requires DistinctIds(remaining)
    ensures InOrder(rows, remaining, Posts(rows, remaining, replies))
    decreases |remaining|
  {
    if remaining != [] {
      var n := PickNode(rows, remaining);
      if PassesOn(replies(n.id)) {
        var rest := WithoutId(remaining, n.id);
        WithoutOne(remaining, n);
        PostsAreDistinct(rows, rest, replies);
        PostsAreOrdered(rows, rest, replies);
        PutInFront(rows, remaining, Posts(rows, rest, replies));
      }
    }
  }

  lemma PutInFront(rows: seq<Assignment>, nodes: seq<Node>, later: seq<Node>)
    requires nodes != []
    requires var rest := WithoutId(nodes, PickNode(rows, nodes).id);
             InOrder(rows, rest, later) && forall m :: m in later ==> m in rest
    ensures InOrder(rows, nodes, [PickNode(rows, nodes)] + later)
  {
    var n := PickNode(rows, nodes);
    forall j | 0 <= j < |later| ensures Ahead(rows, nodes, n, later[j]) {
      assert later[j] in later;
      PickedIsAhead(rows, nodes, later[j]);
    }
    forall i, j | 0 <= i < j < |later| ensures Ahead(rows, nodes, later[i], later[j]) {
      AheadInRest(rows, nodes, n.id, later[i], later[j]);
    }
  }

  lemma AheadInRest(rows: seq<Assignment>, nodes: seq<Node>, id: nat, a: Node, b: Node)
    requires Ahead(rows, WithoutId(nodes, id), a, b)
    ensures Ahead(rows, nodes, a, b)
  {
    if NotAfter(rows, b, a) {
      WithoutKeepsOrder(nodes, id, a, b);
    }
  }

  lemma DifferentIds(nodes: seq<Node>, a: Node, b: Node)
    requires DistinctIds(nodes) && a in nodes && b in nodes && a != b
    ensures a.id != b.id
  {
  }

  /** If every post was passed on, every candidate was posted to. */
  lemma {:induction false} NobodySkipped(rows: seq<Assignment>, remaining: seq<Node>, replies: nat -> Reply)
    requires DistinctIds(remaining)
    requires forall n :: n in Posts(rows, remaining, replies) ==> PassesOn(replies(n.id))
    ensures forall n :: n in remaining ==> n in Posts(rows, remaining, replies)
    decreases |remaining|
  {
    if remaining != [] {
      var n := PickNode(rows, remaining);
      var posts := Posts(rows, remaining, replies);
      assert posts[0] == n;
      var rest := WithoutId(remaining, n.id);
      assert posts[1..] == Posts(rows, rest, replies);
      assert forall m :: m in posts[1..] ==> m in posts;
      WithoutOne(remaining, n);
      NobodySkipped(rows, rest, replies);
      forall m | m in remaining ensures m in posts {
        if m == n {
          assert posts[0] == m;
        } else {
          DifferentIds(remaining, m, n);
          assert m in rest && m in posts[1..];
        }
      }
    }
  }

  ghost predicate LastIsLeast(rows: seq<Assignment>, nodes: seq<Node>, posts: seq<Node>)
    requires posts != []
  {
    forall m :: m in nodes && m !in posts ==> Ahead(rows, nodes, posts[|posts| - 1], m)
  }

  /** The last post is least among the candidates that were not posted to. */
  lemma {:induction false} LastPostIsLeast(rows: seq<Assignment>, remaining: seq<Node>, replies: nat -> Reply)
    requires DistinctIds(remaining) && remaining != []
    ensures Posts(rows, remaining, replies) != []
    ensures LastIsLeast(rows, remaining, Posts(rows, remaining, replies))
    decreases |remaining|
  {
    var n := PickNode(rows, remaining);
    var rest := WithoutId(remaining, n.id);
    WithoutOne(remaining, n);
    if PassesOn(replies(n.id)) && rest != [] {
      LastPostIsLeast(rows, rest, replies);
      LeastInFront(rows, remaining, Posts(rows, rest, replies));
    } else {
      var none: seq<Node> := [];
      assert Posts(rows, remaining, replies) == [n] + none;
      forall m | m in remaining && m !in [n] ensures Ahead(rows, remaining, n, m) {
        PickedIsAhead(rows, remaining, m);
      }
    }
  }

  lemma LeastInFront(rows: seq<Assignment>, nodes: seq<Node>, later: seq<Node>)
    requires DistinctIds(nodes) && nodes != [] && later != []
    requires LastIsLeast(rows, WithoutId(nodes, PickNode(rows, nodes).id), later)
    ensures LastIsLeast(rows, nodes, [PickNode(rows, nodes)] + later)
  {
    var n := PickNode(rows, nodes);
    var posts := [n] + later;
    forall m | m in nodes && m !in posts ensures Ahead(rows, nodes, posts[|posts| - 1], m) {
      assert posts[0] == n && m !in later;
      DifferentIds(nodes, m, n);
      AheadInRest(rows, nodes, n.id, later[|later| - 1], m);
    }
  }

  /** No candidate that would have decided stands ahead of the one whose answer decided. */
  lemma DeciderIsLeast(rows: seq<Assignment>, candidates: seq<Node>, replies: nat -> Reply)
    requires DistinctIds(candidates) && candidates != []
    ensures var posts := Posts(rows, candidates, replies);
            posts != [] && !PassesOn(replies(posts[|posts| - 1].id)) ==>
              forall m :: m in candidates && !PassesOn(replies(m.id)) && m != posts[|posts| - 1] ==>
                m !in posts && Ahead(rows, candidates, posts[|posts| - 1], m)
  {
    PostsAreDistinct(rows, candidates, replies);
    LastPostIsLeast(rows, candidates, replies);
    var posts := Posts(rows, candidates, replies);
    forall m | m in posts && !PassesOn(replies(m.id)) ensures m == posts[|posts| - 1] {
      var i :| 0 <= i < |posts| && posts[i] == m;
    }
  }

  /**
    The accepting node has least load for its weight among the candidates that have not refused, and
    every candidate posted to before it refused.
   */
  lemma AcceptingNodeIsLeast(rows: seq<Assignment>, candidates: seq<Node>, replies: nat -> Reply,
                             blocked: Option<ErrorCode>)
    requires DistinctIds(candidates)
    ensures var o := Offer(rows, candidates, replies, blocked);
            o.outcome.AcceptedBy? ==>
              && o.outcome.node in candidates
              && replies(o.outcome.node.id) == Taken(o.outcome.workerTask, o.outcome.status)
              && blocked.None? && o.posts != [] && o.posts[|o.posts| - 1] == o.outcome.node
              && (forall m :: m in candidates && !PassesOn(replies(m.id)) && m != o.outcome.node ==>
                    Ahead(rows, candidates, o.outcome.node, m))
              && (forall i :: 0 <= i < |o.posts| - 1 ==> PassesOn(replies(o.posts[i].id)))
  {
    var o := Offer(rows, candidates, replies, blocked);
    if o.outcome.AcceptedBy? {
      PostsAreDistinct(rows, candidates, replies);
      DeciderIsLeast(rows, candidates, replies);
      assert o.posts[|o.posts| - 1] in o.posts;
    }
  }

  /** The node refuses with the code in its body, ahead of all others that do not pass the task on. */
  ghost predicate RefusesFirst(rows: seq<Assignment>, candidates: seq<Node>, replies: nat -> Reply, n: Node) {
    && n in candidates && replies(n.id) == Refused("payload_too_large")
    && forall m :: m in candidates && !PassesOn(replies(m.id)) && m != n ==> Ahead(rows, candidates, n, m)
  }

  /** All posts pass on, so all candidates do. */
  lemma AllPassOn(rows: seq<Assignment>, candidates: seq<Node>, replies: nat -> Reply)
    requires DistinctIds(candidates) && candidates != []
    requires var posts := Posts(rows, candidates, replies);
             posts != [] && PassesOn(replies(posts[|posts| - 1].id))
    ensures forall n :: n in candidates ==> PassesOn(replies(n.id))
  {
    var posts := Posts(rows, candidates, replies);
    PostsAreDistinct(rows, candidates, replies);
    forall n | n in posts ensures PassesOn(replies(n.id)) {
      var i :| 0 <= i < |posts| && posts[i] == n;
    }
    NobodySkipped(rows, candidates, replies);
  }

  /** Only the node whose answer decided can refuse first. */
  lemma DeciderRefusesFirst(rows: seq<Assignment>, candidates: seq<Node>, replies: nat -> Reply, n: Node)
    requires DistinctIds(candidates) && candidates != []
    requires var posts := Posts(rows, candidates, replies);
             posts != [] && !PassesOn(replies(posts[|posts| - 1].id))
    ensures var posts := Posts(rows, candidates, replies);
            var last := posts[|posts| - 1];
            last in candidates && (RefusesFirst(rows, candidates, replies, n)
                                   <==> n == last && replies(last.id) == Refused("payload_too_large"))
  {
    var posts := Posts(rows, candidates, replies);
    var last := posts[|posts| - 1];
    PostsAreDistinct(rows, candidates, replies);
    DeciderIsLeast(rows, candidates, replies);
    assert last in posts;
    if RefusesFirst(rows, candidates, replies, n) && n != last {
      AheadIsStrict(rows, candidates, last, n);
    }
  }

  lemma PassedTooLarge(rows: seq<Assignment>, candidates: seq<Node>, replies: nat -> Reply, last: Node)
    requires DistinctIds(candidates) && candidates != []
    requires var posts := Posts(rows, candidates, replies);
             posts != [] && posts[|posts| - 1] == last && PassesOn(replies(last.id))
    ensures OutcomeOf(candidates, Posts(rows, candidates, replies), replies) == Failed(PayloadTooLarge)
            <==> forall n :: n in candidates ==> replies(n.id) == TooLarge
    ensures !exists n :: RefusesFirst(rows, candidates, replies, n)
  {
    AllPassOn(rows, candidates, replies);
  }

  lemma DecidedTooLarge(rows: seq<Assignment>, candidates: seq<Node>, replies: nat -> Reply, last: Node)
    requires DistinctIds(candidates) && candidates != []
    requires var posts := Posts(rows, candidates, replies);
             posts != [] && posts[|posts| - 1] == last && !PassesOn(replies(last.id))
    ensures OutcomeOf(candidates, Posts(rows, candidates, replies), replies) == Failed(PayloadTooLarge)
            <==> RefusesFirst(rows, candidates, replies, last)
    ensures forall n :: RefusesFirst(rows, candidates, replies, n) ==> n == last
    ensures !forall n :: n in candidates ==> replies(n.id) == TooLarge
  {
    DeciderRefusesFirst(rows, candidates, replies, last);
    forall n | RefusesFirst(rows, candidates, replies, n) ensures n == last {
      DeciderRefusesFirst(rows, candidates, replies, n);
    }
  }

  /**
    An offering fails with `payload_too_large` exactly when every candidate answered 413, or when the
    first candidate by score that does not pass the task on refuses it with that code in its body.
   */
  lemma PayloadTooLargeIff(rows: seq<Assignment>, candidates: seq<Node>, replies: nat -> Reply)
    requires DistinctIds(candidates) && candidates != []
    ensures Offer(rows, candidates, replies, None).outcome == Failed(PayloadTooLarge) <==>
              || (forall n :: n in candidates ==> replies(n.id) == TooLarge)
              || exists n :: RefusesFirst(rows, candidates, replies, n)
  {
    LastPostIsLeast(rows, candidates, replies);
    var posts := Posts(rows, candidates, replies);
    var last := posts[|posts| - 1];
    if PassesOn(replies(last.id)) {
      PassedTooLarge(rows, candidates, replies, last);
    } else {
      DecidedTooLarge(rows, candidates, replies, last);
    }
  }

  lemma AheadIsStrict(rows: seq<Assignment>, nodes: seq<Node>, a: Node, b: Node)
    requires DistinctIds(nodes) && a != b && Ahead(rows, nodes, a, b)
    ensures !Ahead(rows, nodes, b, a)
  {
  }

  /** The task gives up its timeout exactly when a node it was posted to was full or had no engine. */
  lemma TimeoutGivenUpIff(rows: seq<Assignment>, candidates: seq<Node>, replies: nat -> Reply,
                          blocked: Option<ErrorCode>)
    ensures var o := Offer(rows, candidates, replies, blocked);
            o.noTimeout <==> exists i :: 0 <= i < |o.posts| && GivesUpTimeout(replies(o.posts[i].id))
  {
  }

  /** A task stays unplaced only if every candidate was asked, and one was busy or could not be reached. */
  lemma UnplacedWhy(rows: seq<Assignment>, candidates: seq<Node>, replies: nat -> Reply)
    requires DistinctIds(candidates) && candidates != []
    requires Offer(rows, candidates, replies, None).outcome == NotPlaced
    ensures var o := Offer(rows, candidates, replies, None);
            && |o.posts| == |candidates|
            && (o.noTimeout || exists n :: n in candidates && replies(n.id) == Unreached)
  {
    EverybodyPosted(rows, candidates, replies);
  }

  lemma EverybodyPosted(rows: seq<Assignment>, candidates: seq<Node>, replies: nat -> Reply)
    requires DistinctIds(candidates) && candidates != []
    requires OutcomeOf(candidates, Posts(rows, candidates, replies), replies) == NotPlaced
    ensures var posts := Posts(rows, candidates, replies);
            && |posts| == |candidates|
            && exists n :: n in candidates && n in posts
                         && (GivesUpTimeout(replies(n.id)) || replies(n.id) == Unreached)
  {
    EverybodyPassed(rows, candidates, replies);
    NobodySkipped(rows, candidates, replies);
    AllPosted(rows, candidates, replies);
    SomebodyElse(candidates, Posts(rows, candidates, replies), replies);
  }

  /** Unplaced, the task was passed on by every node it was posted to. */
  lemma EverybodyPassed(rows: seq<Assignment>, candidates: seq<Node>, replies: nat -> Reply)
    requires DistinctIds(candidates) && candidates != []
    requires OutcomeOf(candidates, Posts(rows, candidates, replies), replies) == NotPlaced
    ensures forall n :: n in Posts(rows, candidates, replies) ==> PassesOn(replies(n.id))
  {
    PostsAreDistinct(rows, candidates, replies);
    var posts := Posts(rows, candidates, replies);
    forall n | n in posts ensures PassesOn(replies(n.id)) {
      var i :| 0 <= i < |posts| && posts[i] == n;
    }
  }

  /** Not every answer was 413, so one was of the other kinds that pass the task on. */
  lemma SomebodyElse(candidates: seq<Node>, posts: seq<Node>, replies: nat -> Reply)
    requires candidates != [] && OutcomeOf(candidates, posts, replies) == NotPlaced
    requires forall n :: n in candidates ==> n in posts
    requires forall n :: n in posts ==> PassesOn(replies(n.id))
    ensures exists n :: n in candidates && n in posts && (GivesUpTimeout(replies(n.id)) || replies(n.id) == Unreached)
  {
    var n :| n in candidates && replies(n.id) != TooLarge;
    assert n in posts && PassesOn(replies(n.id));
  }

  lemma {:induction false} AllPosted(rows: seq<Assignment>, remaining: seq<Node>, replies: nat -> Reply)
    requires DistinctIds(remaining)
    requires forall n :: n in Posts(rows, remaining, replies) ==> PassesOn(replies(n.id))
    ensures |Posts(rows, remaining, replies)| == |remaining|
    decreases |remaining|
  {
    if remaining != [] {
      var n := PickNode(rows, remaining);
      var posts := Posts(rows, remaining, replies);
      assert posts[0] == n;
      var rest := WithoutId(remaining, n.id);
      assert posts[1..] == Posts(rows, rest, replies);
      assert forall m :: m in posts[1..] ==> m in posts;
      WithoutOne(remaining, n);
      AllPosted(rows, rest, replies);
    }
  }

  /** Where the dispatch loop stands: the nodes posted to and those that remain. */
  ghost predicate Underway(rows: seq<Assignment>, candidates: seq<Node>, replies: nat -> Reply,
      posts: seq<Node>, remaining: seq<Node>)
  {
    && DistinctIds(remaining)
    && Posts(rows, candidates, replies) == posts + Posts(rows, remaining, replies)
    && (forall n :: n in candidates <==> n in posts || n in remaining)
    && |posts| + |remaining| == |candidates|
  }

  /** What the loop's flag and counter say of the nodes posted to, which all passed the task on. */
  ghost predicate Counted(replies: nat -> Reply, posts: seq<Node>, noTimeout: bool, tooLarge: nat) {
    && (forall n :: n in posts ==> PassesOn(replies(n.id)))
    && (noTimeout <==> exists n :: n in posts && GivesUpTimeout(replies(n.id)))
    && tooLarge <= |posts|
    && (tooLarge == |posts| <==> forall n :: n in posts ==> replies(n.id) == TooLarge)
  }

  /** Picking a node out leaves all others. */
  lemma OthersRemain(remaining: seq<Node>, n: Node, m: Node)
    requires DistinctIds(remaining) && n in remaining
    ensures m in remaining <==> m == n || m in WithoutId(remaining, n.id)
  {
    if m in remaining && m != n {
      DifferentIds(remaining, m, n);
    }
  }

  /** The posts from here on, when the next node passes the task on. */
  lemma PostsGoOn(rows: seq<Assignment>, remaining: seq<Node>, replies: nat -> Reply)
    requires remaining != [] && PassesOn(replies(PickNode(rows, remaining).id))
    ensures var n := PickNode(rows, remaining);
            Posts(rows, remaining, replies) == [n] + Posts(rows, WithoutId(remaining, n.id), replies)
  {
  }

  lemma NextPost(rows: seq<Assignment>, candidates: seq<Node>, replies: nat -> Reply, posts: seq<Node>,
                 remaining: seq<Node>)
    requires Underway(rows, candidates, replies, posts, remaining) && remaining != []
    requires PassesOn(replies(PickNode(rows, remaining).id))
    ensures var n := PickNode(rows, remaining);
            Underway(rows, candidates, replies, posts + [n], WithoutId(remaining, n.id))
  {
    var n := PickNode(rows, remaining);
    var rest := WithoutId(remaining, n.id);
    WithoutOne(remaining, n);
    PostsGoOn(rows, remaining, replies);
    OnePostMore(posts, n, Posts(rows, rest, replies));
    forall m ensures m in candidates <==> m in posts + [n] || m in rest {
      OthersRemain(remaining, n, m);
    }
  }

  lemma OnePostMore(posts: seq<Node>, n: Node, later: seq<Node>)
    ensures posts + ([n] + later) == (posts + [n]) + later
  {
  }

  lemma NextCount(replies: nat -> Reply, posts: seq<Node>, noTimeout: bool, tooLarge: nat, n: Node)
    requires Counted(replies, posts, noTimeout, tooLarge) && PassesOn(replies(n.id))
    ensures Counted(replies, posts + [n], noTimeout || GivesUpTimeout(replies(n.id)),
                    tooLarge + (if replies(n.id) == TooLarge then 1 else 0))
  {
  }

  lemma LoopDecides(rows: seq<Assignment>, candidates: seq<Node>, replies: nat -> Reply,
      posts: seq<Node>, remaining: seq<Node>, noTimeout: bool, tooLarge: nat)
    requires Underway(rows, candidates, replies, posts, remaining) && remaining != []
    requires Counted(replies, posts, noTimeout, tooLarge)
    requires !PassesOn(replies(PickNode(rows, remaining).id))
    ensures var n := PickNode(rows, remaining);
            Offer(rows, candidates, replies, None) == Offering(posts + [n], noTimeout, Decided(n, replies(n.id)))
  {
  }

  lemma LoopEnds(rows: seq<Assignment>, candidates: seq<Node>, replies: nat -> Reply,
      posts: seq<Node>, noTimeout: bool, tooLarge: nat)
    requires Underway(rows, candidates, replies, posts, []) && candidates != []
    requires Counted(replies, posts, noTimeout, tooLarge)
    ensures Offer(rows, candidates, replies, None)
            == Offering(posts, noTimeout,
                        if tooLarge > 0 && tooLarge >= |candidates| then Failed(PayloadTooLarge) else NotPlaced)
  {
  }

  /** What one reply does to the loop's flag and counter, or the outcome it decides. */
  method TakeReply(node: Node, reply: Reply, noTimeout: bool, tooLarge: nat)
      returns (flag: bool, count: nat, decided: Option<Outcome>)
    ensures flag == (noTimeout || GivesUpTimeout(reply))
    ensures count == tooLarge + (if reply == TooLarge then 1 else 0)
    ensures decided == if PassesOn(reply) then None else Some(Decided(node, reply))
  {
    flag, count, decided := noTimeout, tooLarge, None;
    match reply
    case Busy =>
      flag := true;
    case TooLarge =>
      count := count + 1;
    case Unreached =>
    case Refused(code) =>
      var mapped := MapWorkerError(code);
      if mapped == EngineUnavailable {
        flag := true;
      } else {
        decided := Some(Failed(mapped));
      }
    case Taken(workerTask, status) =>
      decided := Some(AcceptedBy(node, workerTask, status));
  }

  lemma BlockedOffers(rows: seq<Assignment>, candidates: seq<Node>, replies: nat -> Reply, code: ErrorCode)
    requires candidates != []
    ensures Offer(rows, candidates, replies, Some(code)) == Offering([], false, Failed(code))
  {
  }

  /** The dispatch loop as it runs: remaining candidates, a counter of 413 answers, early returns. */
  method OfferToCandidates(rows: seq<Assignment>, candidates: seq<Node>, replies: nat -> Reply,
                           blocked: Option<ErrorCode>)
      returns (posts: seq<Node>, noTimeout: bool, outcome: Outcome)
    requires DistinctIds(candidates)
    ensures Offering(posts, noTimeout, outcome) == Offer(rows, candidates, replies, blocked)
  {
    posts, noTimeout, outcome := [], false, NotPlaced;
    var remaining, tooLarge := candidates, 0;
    while remaining != []
      invariant Underway(rows, candidates, replies, posts, remaining)
      invariant Counted(replies, posts, noTimeout, tooLarge)
      invariant blocked.Some? ==> posts == [] && !noTimeout && remaining == candidates
      invariant outcome == NotPlaced
      decreases |remaining|
    {
      var node := PickNode(rows, remaining);
      if blocked.Some? {
        BlockedOffers(rows, candidates, replies, blocked.value);
        outcome := Failed(blocked.value);
        return;
      }
      if PassesOn(replies(node.id)) {
        NextPost(rows, candidates, replies, posts, remaining);
        NextCount(replies, posts, noTimeout, tooLarge, node);
      } else {
        LoopDecides(rows, candidates, replies, posts, remaining, noTimeout, tooLarge);
      }
      remaining := WithoutId(remaining, node.id);
      posts := posts + [node];
      var flag, count, decided := TakeReply(node, replies(node.id), noTimeout, tooLarge);
      noTimeout, tooLarge := flag, count;
      if decided.Some? {
        outcome := decided.value;
        return;
      }
    }
    if candidates != [] {
      LoopEnds(rows, candidates, replies, posts, noTimeout, tooLarge);
    }
    if tooLarge > 0 && tooLarge >= |candidates| {
      outcome := Failed(PayloadTooLarge);
    }
  }
}
