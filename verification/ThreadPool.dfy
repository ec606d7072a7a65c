// The thread pool's queue and its shutdown protocol: one queue, a bounded set of
// worker threads, and a sentinel that each stopping worker posts again.
module ThreadPool {
  import opened Common

  /** What the queue holds: work items by submission number, and sentinels. */
  datatype Entry = Item(id: nat) | Sentinel

  /** A worker waits in get, holds an item it took, runs it, was told to stop and must post the sentinel again, or
      has returned. */
  datatype Worker = Ready | Holding(id: nat) | Running(id: nat) | Told | Exited

  /** A future's state; a cancelled one is noticed when its item is taken. */
  datatype Status = Pending | Cancelled | Active | Finished | Noticed

  /** status and runs are indexed by submission number; shutdowns counts the calls of shutdown. */
  datatype State = State(maxWorkers: nat, queue: seq<Entry>, threads: seq<Worker>, status: seq<Status>, runs: seq<nat>,
                         shutdown: bool, shutdowns: nat)

  datatype Action = Submit | Shutdown | Cancel(id: nat) | Take(w: nat) | Begin(w: nat) | Finish(w: nat) | Repost(w: nat)

  predicate Enabled(s: State, a: Action) {
    match a
    case Submit => |s.runs| == |s.status|
    case Shutdown => true
    case Cancel(id) => id < |s.status|
    case Take(w) => w < |s.threads| && s.threads[w].Ready? && s.queue != []
    case Begin(w) => w < |s.threads| && s.threads[w].Holding? && s.threads[w].id < |s.status| && |s.runs| == |s.status|
    case Finish(w) => w < |s.threads| && s.threads[w].Running? && s.threads[w].id < |s.status|
    case Repost(w) => w < |s.threads| && s.threads[w].Told?
  }

  function Set(s: State, w: nat, k: Worker): State
    requires w < |s.threads|
  {
    s.(threads := s.threads[w := k])
  }

  function Apply(s: State, a: Action): State
    requires Enabled(s, a)
  {
    match a
    case Submit =>
      if s.shutdown then s
      else s.(queue := s.queue + [Item(|s.status|)], status := s.status + [Pending], runs := s.runs + [0],
              threads := if |s.threads| < s.maxWorkers then s.threads + [Ready] else s.threads)
    case Shutdown => s.(shutdown := true, shutdowns := s.shutdowns + 1, queue := s.queue + [Sentinel])
    case Cancel(id) => if s.status[id].Pending? then s.(status := s.status[id := Cancelled]) else s
    case Take(w) =>
      var t := s.(queue := s.queue[1..]);
      if s.queue[0].Item? then Set(t, w, Holding(s.queue[0].id))
      else if s.shutdown then Set(t, w, Told)
      else t
    case Begin(w) =>
      var id := s.threads[w].id;
      if s.status[id].Cancelled? then Set(s.(status := s.status[id := Noticed]), w, Ready)
      else Set(s.(status := s.status[id := Active], runs := s.runs[id := s.runs[id] + 1]), w, Running(id))
    case Finish(w) =>
      var id := s.threads[w].id;
      Set(s.(status := s.status[id := Finished]), w, Ready)
    case Repost(w) => Set(s.(queue := s.queue + [Sentinel]), w, Exited)
  }

  function Initial(maxWorkers: nat): State {
    State(maxWorkers, [], [], [], [], false, 0)
  }

  ghost predicate Follows(s: State, a: Action, s': State) {
    Enabled(s, a) && s' == Apply(s, a)
  }

  ghost predicate IsRun(maxWorkers: nat, states: seq<State>, actions: seq<Action>) {
    && |states| == |actions| + 1 && states[0] == Initial(maxWorkers)
    && forall i :: 0 <= i < |actions| ==> Follows(states[i], actions[i], states[i + 1])
  }

  // ------------------------------------------------------------------
  // Where every item is
  // ------------------------------------------------------------------

  predicate Queued(s: State, id: nat) {
    Item(id) in s.queue
  }

  predicate Has(k: Worker, id: nat) {
    (k.Holding? || k.Running?) && k.id == id
  }

  ghost predicate Owned(s: State, id: nat) {
    exists w :: 0 <= w < |s.threads| && Has(s.threads[w], id)
  }

  /** Every accepted item is in exactly one place, and its future's state fits the place. */
  ghost predicate Placed(s: State, id: nat)
    requires id < |s.status| == |s.runs|
  {
    match s.status[id]
    case Pending => s.runs[id] == 0 && (Queued(s, id) <==> !Owned(s, id))
    case Cancelled => s.runs[id] == 0 && (Queued(s, id) <==> !Owned(s, id))
    case Active => s.runs[id] == 1 && !Queued(s, id) && Owned(s, id)
    case Finished => s.runs[id] == 1 && !Queued(s, id) && !Owned(s, id)
    case Noticed => s.runs[id] == 0 && !Queued(s, id) && !Owned(s, id)
  }

  ghost predicate OnceQueued(s: State) {
    forall i, j :: 0 <= i < j < |s.queue| && s.queue[i].Item? ==> s.queue[i] != s.queue[j]
  }

  ghost predicate OnceOwned(s: State) {
    forall v, w, id :: 0 <= v < |s.threads| && 0 <= w < |s.threads| && Has(s.threads[v], id) && Has(s.threads[w], id) ==> v == w
  }

  predicate WorkerFits(s: State, k: Worker) {
    && (k.Holding? ==> k.id < |s.status| && (s.status[k.id].Pending? || s.status[k.id].Cancelled?))
    && (k.Running? ==> k.id < |s.status| && s.status[k.id].Active?)
  }

  ghost predicate Partition(s: State) {
    && |s.status| == |s.runs| && OnceQueued(s) && OnceOwned(s)
    && (forall i :: 0 <= i < |s.queue| && s.queue[i].Item? ==> s.queue[i].id < |s.status|)
    && (forall w :: 0 <= w < |s.threads| ==> WorkerFits(s, s.threads[w]))
    && (forall id :: 0 <= id < |s.status| ==> Placed(s, id))
  }

  // ------------------------------------------------------------------
  // Sentinels
  // ------------------------------------------------------------------

  function Sentinels(queue: seq<Entry>): (n: nat)
    ensures n <= |queue|
  {
    if queue == [] then 0 else Sentinels(queue[..|queue| - 1]) + if queue[|queue| - 1].Sentinel? then 1 else 0
  }

  function ToldCount(threads: seq<Worker>): nat {
    if threads == [] then 0 else ToldCount(threads[..|threads| - 1]) + if threads[|threads| - 1].Told? then 1 else 0
  }

  ghost predicate ItemsFirst(queue: seq<Entry>) {
    forall i, j :: 0 <= i < j < |queue| && queue[i].Sentinel? ==> queue[j].Sentinel?
  }

  ghost predicate NoItems(queue: seq<Entry>) {
    forall i :: 0 <= i < |queue| ==> queue[i].Sentinel?
  }

  ghost predicate SomeoneTold(s: State) {
    exists w :: 0 <= w < |s.threads| && (s.threads[w].Told? || s.threads[w].Exited?)
  }

  /** No more threads than allowed and at least one once something was submitted; items before sentinels; every
      sentinel put by shutdown is in the queue or in the hands of a worker that will post it again; a worker was
      told to stop only when no item was left. */
  ghost predicate Protocol(s: State) {
    && |s.threads| <= s.maxWorkers
    && (s.maxWorkers > 0 && |s.status| > 0 ==> |s.threads| > 0)
    && ItemsFirst(s.queue)
    && Sentinels(s.queue) + ToldCount(s.threads) == s.shutdowns
    && (s.shutdown <==> s.shutdowns > 0)
    && (SomeoneTold(s) ==> NoItems(s.queue) && s.shutdown)
  }

  ghost predicate Inv(s: State) {
    Partition(s) && Protocol(s)
  }

  // ------------------------------------------------------------------
  // The partition is kept
  // ------------------------------------------------------------------

  lemma OwnedAfter(s: State, w: nat, k: Worker, id: nat)
    requires OnceOwned(s) && w < |s.threads|
    ensures Owned(Set(s, w, k), id) <==> Has(k, id) || (Owned(s, id) && !Has(s.threads[w], id))
  {
    var s' := Set(s, w, k);
    if Has(k, id) {
      assert Has(s'.threads[w], id);
    }
    if v :| 0 <= v < |s.threads| && Has(s.threads[v], id) && v != w {
      assert Has(s'.threads[v], id);
    }
  }

  lemma QueuedAfter(s: State, id: nat)
    requires OnceQueued(s) && s.queue != []
    ensures Item(id) in s.queue[1..] <==> Item(id) in s.queue && s.queue[0] != Item(id)
  {
    if Item(id) in s.queue {
      var i :| 0 <= i < |s.queue| && s.queue[i] == Item(id);
      assert i > 0 ==> s.queue[1..][i - 1] == Item(id);
    }
  }

  lemma SubmitKeepsPartition(s: State)
    requires Partition(s) && Enabled(s, Submit)
    ensures Partition(Apply(s, Submit))
  {
    var s', n := Apply(s, Submit), |s.status|;
    if !s.shutdown {
      assert s'.queue[|s.queue|] == Item(n);
      forall id | 0 <= id < |s'.status| ensures Placed(s', id) {
        assert Owned(s', id) <==> id < n && Owned(s, id) by {
          if w :| 0 <= w < |s'.threads| && Has(s'.threads[w], id) {
            assert Has(s.threads[w], id) && WorkerFits(s, s.threads[w]);
          }
          if w :| 0 <= w < |s.threads| && Has(s.threads[w], id) {
            assert Has(s'.threads[w], id);
          }
        }
        assert Queued(s', id) <==> Queued(s, id) || id == n;
        assert id < n ==> Placed(s, id);
      }
      forall w | 0 <= w < |s'.threads| ensures WorkerFits(s', s'.threads[w]) {
        assert w < |s.threads| ==> WorkerFits(s, s.threads[w]);
      }
    }
  }

  lemma TakeKeepsPartition(s: State, w: nat)
    requires Partition(s) && Enabled(s, Take(w))
    ensures Partition(Apply(s, Take(w)))
  {
    var s' := Apply(s, Take(w));
    var first := s.queue[0];
    assert forall i :: 0 <= i < |s'.queue| ==> s'.queue[i] == s.queue[i + 1];
    forall id | 0 <= id < |s.status| ensures Placed(s', id) {
      assert Placed(s, id);
      QueuedAfter(s, id);
      OwnedAfter(s, w, s'.threads[w], id);
      OwnedSame(Set(s, w, s'.threads[w]), s', id);
    }
    if first.Item? {
      assert Queued(s, first.id) && Placed(s, first.id);
      ChangedOwner(s, s', w);
    }
    forall v | 0 <= v < |s'.threads| ensures WorkerFits(s', s'.threads[v]) {
      assert WorkerFits(s, s.threads[v]);
    }
  }

  lemma OwnedSame(s: State, s': State, id: nat)
    requires s.threads == s'.threads
    ensures Owned(s, id) <==> Owned(s', id)
  {
  }

  /** A worker may take over an item nobody owned. */
  lemma ChangedOwner(s: State, s': State, w: nat)
    requires OnceOwned(s) && w < |s.threads| && w < |s'.threads| && s'.threads == s.threads[w := s'.threads[w]]
    requires forall id :: Has(s'.threads[w], id) ==> !Owned(s, id) || Has(s.threads[w], id)
    ensures OnceOwned(s')
  {
    forall u, v, id | 0 <= u < |s'.threads| && 0 <= v < |s'.threads| && Has(s'.threads[u], id) && Has(s'.threads[v], id)
      ensures u == v
    {
      if u != v && (u == w || v == w) {
        var other := if u == w then v else u;
        assert Has(s.threads[other], id);
        assert Owned(s, id);
      }
    }
  }

  /** A worker moves on, and the state of its own item changes with it. */
  lemma OwnItemChanges(s: State, s': State, w: nat, id: nat)
    requires Partition(s) && w < |s.threads| && Has(s.threads[w], id) && id < |s.status|
    requires |s'.status| == |s'.runs| == |s.status| && s'.queue == s.queue && w < |s'.threads|
    requires s'.threads == s.threads[w := s'.threads[w]]
    requires (s'.threads[w] == Ready || s'.threads[w] == Running(id))
    requires forall j :: 0 <= j < |s.status| && j != id ==> s'.status[j] == s.status[j] && s'.runs[j] == s.runs[j]
    requires !Queued(s, id)
    requires s'.threads[w] == Running(id) ==> s'.status[id].Active? && s'.runs[id] == 1
    requires s'.threads[w] == Ready ==> (s'.status[id].Finished? && s'.runs[id] == 1) || (s'.status[id].Noticed? && s'.runs[id] == 0)
    ensures Partition(s')
  {
    ChangedOwner(s, s', w);
    forall j | 0 <= j < |s'.status| ensures Placed(s', j) {
      assert Placed(s, j);
      OwnedAfter(s, w, s'.threads[w], j);
      OwnedSame(Set(s, w, s'.threads[w]), s', j);
    }
    forall v | 0 <= v < |s'.threads| ensures WorkerFits(s', s'.threads[v]) {
      assert WorkerFits(s, s.threads[v]);
      assert v != w ==> !Has(s.threads[v], id);
    }
  }

  lemma WorkKeepsPartition(s: State, a: Action)
    requires Partition(s) && Enabled(s, a) && (a.Begin? || a.Finish?)
    ensures Partition(Apply(s, a))
  {
    var w := a.w;
    var id := s.threads[w].id;
    assert Has(s.threads[w], id) && Placed(s, id) && WorkerFits(s, s.threads[w]);
    assert Owned(s, id);
    OwnItemChanges(s, Apply(s, a), w, id);
  }

  lemma CancelKeepsPartition(s: State, id: nat)
    requires Partition(s) && Enabled(s, Cancel(id))
    ensures Partition(Apply(s, Cancel(id)))
  {
    var s' := Apply(s, Cancel(id));
    forall j | 0 <= j < |s'.status| ensures Placed(s', j) {
      assert Placed(s, j);
      OwnedSame(s, s', j);
    }
    forall v | 0 <= v < |s'.threads| ensures WorkerFits(s', s'.threads[v]) {
      assert WorkerFits(s, s.threads[v]);
    }
  }

  lemma SentinelKeepsPartition(s: State, a: Action)
    requires Partition(s) && Enabled(s, a) && (a.Shutdown? || a.Repost?)
    ensures Partition(Apply(s, a))
  {
    var s' := Apply(s, a);
    assert forall id :: Item(id) in s'.queue <==> Item(id) in s.queue;
    if a.Repost? {
      ChangedOwner(s, s', a.w);
    }
    forall id | 0 <= id < |s'.status| ensures Placed(s', id) {
      assert Placed(s, id);
      if a.Repost? {
        OwnedAfter(s, a.w, Exited, id);
        OwnedSame(Set(s, a.w, Exited), s', id);
      } else {
        OwnedSame(s, s', id);
      }
    }
    forall v | 0 <= v < |s'.threads| ensures WorkerFits(s', s'.threads[v]) {
      assert WorkerFits(s, s.threads[v]);
    }
  }

  lemma StepKeepsPartition(s: State, a: Action)
    requires Partition(s) && Enabled(s, a)
    ensures Partition(Apply(s, a))
  {
    match a
    case Submit => SubmitKeepsPartition(s);
    case Shutdown => SentinelKeepsPartition(s, a);
    case Cancel(id) => CancelKeepsPartition(s, id);
    case Take(w) => TakeKeepsPartition(s, w);
    case Begin(_) => WorkKeepsPartition(s, a);
    case Finish(_) => WorkKeepsPartition(s, a);
    case Repost(_) => SentinelKeepsPartition(s, a);
  }

  // ------------------------------------------------------------------
  // The protocol is kept
  // ------------------------------------------------------------------

  lemma {:induction false} SentinelsOf(queue: seq<Entry>)
    ensures Sentinels(queue) == 0 <==> forall i :: 0 <= i < |queue| ==> queue[i].Item?
    ensures queue != [] ==> Sentinels(queue) == Sentinels(queue[1..]) + if queue[0].Sentinel? then 1 else 0
  {
    if queue != [] {
      var front := queue[..|queue| - 1];
      SentinelsOf(front);
      if front == [] {
        assert queue[1..] == [];
      } else {
        assert queue[1..][..|queue| - 2] == front[1..];
      }
    }
  }

  lemma SentinelsAppend(queue: seq<Entry>, e: Entry)
    ensures Sentinels(queue + [e]) == Sentinels(queue) + if e.Sentinel? then 1 else 0
  {
    assert (queue + [e])[..|queue|] == queue;
  }

  lemma {:induction false} ToldCountSet(threads: seq<Worker>, w: nat, k: Worker)
    requires w < |threads|
    ensures ToldCount(threads[w := k]) + (if threads[w].Told? then 1 else 0) == ToldCount(threads) + if k.Told? then 1 else 0
  {
    var front := threads[..|threads| - 1];
    if w == |threads| - 1 {
      assert threads[w := k][..|threads| - 1] == front;
    } else {
      assert threads[w := k][..|threads| - 1] == front[w := k];
      ToldCountSet(front, w, k);
    }
  }

  lemma {:induction false} ToldCountPositive(threads: seq<Worker>)
    ensures ToldCount(threads) > 0 <==> exists w :: 0 <= w < |threads| && threads[w].Told?
  {
    if threads != [] {
      var front := threads[..|threads| - 1];
      ToldCountPositive(front);
      if w :| 0 <= w < |threads| - 1 && threads[w].Told? {
        assert front[w].Told?;
      }
      if w :| 0 <= w < |front| && front[w].Told? {
        assert threads[w].Told?;
      }
    }
  }

  /** Only the worker named by a step changes, and nobody becomes told or exited otherwise. */
  lemma ToldAfter(s: State, s': State, w: nat)
    requires w < |s.threads| && w < |s'.threads| && s'.threads == s.threads[w := s'.threads[w]]
    requires SomeoneTold(s')
    ensures SomeoneTold(s) || s'.threads[w].Told? || s'.threads[w].Exited?
  {
    var v :| 0 <= v < |s'.threads| && (s'.threads[v].Told? || s'.threads[v].Exited?);
    assert v != w ==> s.threads[v].Told? || s.threads[v].Exited?;
  }

  lemma SubmitKeepsProtocol(s: State)
    requires Protocol(s) && Enabled(s, Submit)
    ensures Protocol(Apply(s, Submit))
  {
    var s' := Apply(s, Submit);
    if !s.shutdown {
      SentinelsAppend(s.queue, Item(|s.status|));
      SentinelsOf(s.queue);
      assert (s.threads + [Ready])[..|s.threads|] == s.threads;
      forall w | 0 <= w < |s'.threads| ensures !s'.threads[w].Told? && !s'.threads[w].Exited? {
        assert w < |s.threads| ==> s'.threads[w] == s.threads[w];
      }
    }
  }

  lemma TakeKeepsProtocol(s: State, w: nat)
    requires Protocol(s) && Enabled(s, Take(w))
    ensures Protocol(Apply(s, Take(w)))
  {
    var s' := Apply(s, Take(w));
    SentinelsOf(s.queue);
    ToldCountSet(s.threads, w, s'.threads[w]);
    assert s'.threads == s.threads[w := s'.threads[w]];
    assert forall i :: 0 <= i < |s'.queue| ==> s'.queue[i] == s.queue[i + 1];
    if SomeoneTold(s') {
      ToldAfter(s, s', w);
    }
  }

  lemma RepostKeepsProtocol(s: State, w: nat)
    requires Protocol(s) && Enabled(s, Repost(w))
    ensures Protocol(Apply(s, Repost(w)))
  {
    SentinelsAppend(s.queue, Sentinel);
    ToldCountSet(s.threads, w, Exited);
    assert s.threads[w].Told?;
    assert SomeoneTold(s);
  }

  lemma WorkKeepsProtocol(s: State, a: Action)
    requires Protocol(s) && Enabled(s, a) && (a.Begin? || a.Finish?)
    ensures Protocol(Apply(s, a))
  {
    var s' := Apply(s, a);
    ToldCountSet(s.threads, a.w, s'.threads[a.w]);
    if SomeoneTold(s') {
      ToldAfter(s, s', a.w);
    }
  }

  lemma ShutdownKeepsProtocol(s: State)
    requires Protocol(s)
    ensures Protocol(Apply(s, Shutdown))
  {
    SentinelsAppend(s.queue, Sentinel);
    assert Apply(s, Shutdown).threads == s.threads;
  }

  lemma StepKeepsProtocol(s: State, a: Action)
    requires Protocol(s) && Enabled(s, a)
    ensures Protocol(Apply(s, a))
  {
    hide ItemsFirst, NoItems, Sentinels, ToldCount;
    match a
    case Submit => SubmitKeepsProtocol(s);
    case Shutdown => ShutdownKeepsProtocol(s);
    case Cancel(_) =>
    case Take(w) => TakeKeepsProtocol(s, w);
    case Begin(_) => WorkKeepsProtocol(s, a);
    case Finish(_) => WorkKeepsProtocol(s, a);
    case Repost(w) => RepostKeepsProtocol(s, w);
  }

  lemma {:induction false} RunKeepsInv(maxWorkers: nat, states: seq<State>, actions: seq<Action>, n: nat)
    requires IsRun(maxWorkers, states, actions) && n <= |actions|
    ensures Inv(states[n]) && states[n].maxWorkers == maxWorkers
  {
    if n > 0 {
      RunKeepsInv(maxWorkers, states, actions, n - 1);
      assert Follows(states[n - 1], actions[n - 1], states[n]);
      StepKeepsPartition(states[n - 1], actions[n - 1]);
      StepKeepsProtocol(states[n - 1], actions[n - 1]);
    }
  }

  // ------------------------------------------------------------------
  // What shutdown achieves
  // ------------------------------------------------------------------

  ghost predicate AllExited(s: State) {
    forall w :: 0 <= w < |s.threads| ==> s.threads[w].Exited?
  }

  /** When every worker has returned, each accepted item was run exactly once, or its future had been cancelled and
      it was never run. */
  lemma NothingLost(maxWorkers: nat, states: seq<State>, actions: seq<Action>, n: nat, id: nat)
    requires IsRun(maxWorkers, states, actions) && n <= |actions| && maxWorkers > 0
    requires AllExited(states[n]) && id < |states[n].status|
    ensures |states[n].runs| == |states[n].status|
    ensures (states[n].status[id] == Finished && states[n].runs[id] == 1)
      || (states[n].status[id] == Noticed && states[n].runs[id] == 0)
  {
    RunKeepsInv(maxWorkers, states, actions, n);
    var s := states[n];
    assert s.threads[0].Exited?;
    assert SomeoneTold(s);
    assert !Queued(s, id);
    assert !Owned(s, id);
    assert Placed(s, id);
  }

  /** In every reachable state: the thread bound, items before sentinels, no sentinel before shutdown, and after it a
      sentinel queued or about to be posted again for whoever is still alive. */
  lemma QueueShape(maxWorkers: nat, states: seq<State>, actions: seq<Action>, n: nat)
    requires IsRun(maxWorkers, states, actions) && n <= |actions|
    ensures var s := states[n];
      && |s.threads| <= maxWorkers && ItemsFirst(s.queue)
      && (!s.shutdown ==> Sentinel !in s.queue)
      && (s.shutdown ==> Sentinel in s.queue || exists w :: 0 <= w < |s.threads| && s.threads[w].Told?)
  {
    RunKeepsInv(maxWorkers, states, actions, n);
    var s := states[n];
    SentinelsOf(s.queue);
    ToldCountPositive(s.threads);
  }

  // ------------------------------------------------------------------
  // First in, first out
  // ------------------------------------------------------------------

  /** Item numbers rise along the queue, every item that was taken is older than every item still queued, and there is a
      thread for each submission up to the bound. */
  ghost predicate InSubmissionOrder(s: State) {
    && (forall i, j :: 0 <= i < j < |s.queue| && s.queue[i].Item? && s.queue[j].Item? ==> s.queue[i].id < s.queue[j].id)
    && (forall id, k :: 0 <= id < |s.status| && !Queued(s, id) && Queued(s, k) ==> id < k)
    && |s.threads| == if |s.status| < s.maxWorkers then |s.status| else s.maxWorkers
  }

  lemma SubmitKeepsOrder(s: State)
    requires Partition(s) && InSubmissionOrder(s) && Enabled(s, Submit)
    ensures InSubmissionOrder(Apply(s, Submit))
  {
    var s', n := Apply(s, Submit), |s.status|;
    if !s.shutdown {
      assert forall i :: 0 <= i < |s.queue| ==> s'.queue[i] == s.queue[i];
      assert s'.queue[|s.queue|] == Item(n);
      forall id, k | 0 <= id < |s'.status| && !Queued(s', id) && Queued(s', k) ensures id < k {
        assert id != n;
        assert !Queued(s, id);
        assert k != n ==> Queued(s, k);
      }
    }
  }

  lemma TakeKeepsOrder(s: State, w: nat)
    requires Partition(s) && InSubmissionOrder(s) && Enabled(s, Take(w))
    ensures InSubmissionOrder(Apply(s, Take(w)))
  {
    var s' := Apply(s, Take(w));
    assert forall i :: 0 <= i < |s'.queue| ==> s'.queue[i] == s.queue[i + 1];
    forall id, k | 0 <= id < |s'.status| && !Queued(s', id) && Queued(s', k) ensures id < k {
      var j :| 0 <= j < |s'.queue| && s'.queue[j] == Item(k);
      assert s.queue[j + 1] == Item(k) && Queued(s, k);
      QueuedAfter(s, id);
      if Queued(s, id) {
        assert s.queue[0] == Item(id);
      }
    }
  }

  lemma StepKeepsOrder(s: State, a: Action)
    requires Partition(s) && InSubmissionOrder(s) && Enabled(s, a)
    ensures InSubmissionOrder(Apply(s, a))
  {
    hide Partition;
    match a
    case Submit => SubmitKeepsOrder(s);
    case Take(w) => TakeKeepsOrder(s, w);
    case _ =>
      var s' := Apply(s, a);
      assert forall id :: Queued(s', id) <==> Queued(s, id);
  }

  /** In every reachable state items are queued in submission order, behind all items already taken. */
  lemma {:induction false} RunKeepsOrder(maxWorkers: nat, states: seq<State>, actions: seq<Action>, n: nat)
    requires IsRun(maxWorkers, states, actions) && n <= |actions|
    ensures InSubmissionOrder(states[n])
  {
    if n > 0 {
      RunKeepsOrder(maxWorkers, states, actions, n - 1);
      RunKeepsInv(maxWorkers, states, actions, n - 1);
      assert Follows(states[n - 1], actions[n - 1], states[n]);
      StepKeepsOrder(states[n - 1], actions[n - 1]);
    }
  }

  lemma {:induction false} StaysTaken(maxWorkers: nat, states: seq<State>, actions: seq<Action>, m: nat, n: nat, id: nat)
    requires IsRun(maxWorkers, states, actions) && m <= n <= |actions|
    requires id < |states[m].status| && !Queued(states[m], id)
    ensures id < |states[n].status| && !Queued(states[n], id)
  {
    if m < n {
      StaysTaken(maxWorkers, states, actions, m, n - 1, id);
      assert Follows(states[n - 1], actions[n - 1], states[n]);
    }
  }

  /** A worker takes item id in step n. */
  predicate Takes(s: State, a: Action, id: nat) {
    Enabled(s, a) && a.Take? && s.queue[0] == Item(id)
  }

  /** So items are taken in the order in which they were submitted, by whichever workers. */
  lemma TakenInOrder(maxWorkers: nat, states: seq<State>, actions: seq<Action>, m: nat, n: nat, first: nat, second: nat)
    requires IsRun(maxWorkers, states, actions) && m < n < |actions|
    requires Takes(states[m], actions[m], first) && Takes(states[n], actions[n], second)
    ensures first < second
  {
    RunKeepsInv(maxWorkers, states, actions, m);
    RunKeepsOrder(maxWorkers, states, actions, n);
    assert Follows(states[m], actions[m], states[m + 1]);
    QueuedAfter(states[m], first);
    StaysTaken(maxWorkers, states, actions, m + 1, n, first);
    assert Queued(states[n], second);
  }

  // ------------------------------------------------------------------
  // Cancelled items
  // ------------------------------------------------------------------

  /** A cancel found the item still pending before step n. */
  ghost predicate CancelledInTime(states: seq<State>, actions: seq<Action>, n: nat, id: nat)
    requires n <= |actions| < |states|
  {
    exists k :: 0 <= k < n && CancelsNow(states[k], actions[k], id)
  }

  predicate CancelsNow(s: State, a: Action, id: nat) {
    a == Cancel(id) && id < |s.status| && s.status[id].Pending?
  }

  lemma {:induction false} CancelledIs(maxWorkers: nat, states: seq<State>, actions: seq<Action>, n: nat, id: nat)
    requires IsRun(maxWorkers, states, actions) && n <= |actions|
    ensures IsCancelled(states[n], id) <==> CancelledInTime(states, actions, n, id)
  {
    if n > 0 {
      var s, a := states[n - 1], actions[n - 1];
      CancelledIs(maxWorkers, states, actions, n - 1, id);
      RunKeepsInv(maxWorkers, states, actions, n - 1);
      assert Follows(s, a, states[n]);
      CancelStep(s, a, id);
      hide Apply, Enabled, Inv, CancelsNow;
      assert CancelledInTime(states, actions, n, id) <==> CancelledInTime(states, actions, n - 1, id) || CancelsNow(s, a, id);
    }
  }

  predicate IsCancelled(s: State, id: nat) {
    id < |s.status| && (s.status[id].Cancelled? || s.status[id].Noticed?)
  }

  lemma CancelStep(s: State, a: Action, id: nat)
    requires Inv(s) && Enabled(s, a)
    ensures IsCancelled(Apply(s, a), id) <==> IsCancelled(s, id) || CancelsNow(s, a, id)
    ensures |s.status| <= |Apply(s, a).status|
  {
    if a.Finish? || a.Begin? {
      assert WorkerFits(s, s.threads[a.w]);
    }
    hide Partition, Protocol;
  }

  /** When every worker has returned, an item was not run exactly if a cancel found it still pending. */
  lemma NotRunIff(maxWorkers: nat, states: seq<State>, actions: seq<Action>, n: nat, id: nat)
    requires IsRun(maxWorkers, states, actions) && n <= |actions| && maxWorkers > 0
    requires AllExited(states[n]) && id < |states[n].status|
    ensures id < |states[n].runs| && (states[n].runs[id] == 0 <==> CancelledInTime(states, actions, n, id))
  {
    NothingLost(maxWorkers, states, actions, n, id);
    CancelledIs(maxWorkers, states, actions, n, id);
  }

  /** A worker step is one a thread takes by itself. */
  predicate WorkerStep(a: Action) {
    a.Take? || a.Begin? || a.Finish? || a.Repost?
  }

  /** After shutdown the pool cannot hang: while a worker is alive, some worker can move. */
  lemma NoHang(maxWorkers: nat, states: seq<State>, actions: seq<Action>, n: nat)
    requires IsRun(maxWorkers, states, actions) && n <= |actions|
    requires states[n].shutdown && !AllExited(states[n])
    ensures exists a :: WorkerStep(a) && Enabled(states[n], a)
  {
    RunKeepsInv(maxWorkers, states, actions, n);
    var s := states[n];
    var w :| 0 <= w < |s.threads| && !s.threads[w].Exited?;
    assert WorkerFits(s, s.threads[w]);
    match s.threads[w]
    case Holding(_) => assert Enabled(s, Begin(w));
    case Running(_) => assert Enabled(s, Finish(w));
    case Told => assert Enabled(s, Repost(w));
    case Ready =>
      if s.queue != [] {
        assert Enabled(s, Take(w));
      } else {
        ToldCountPositive(s.threads);
        var v :| 0 <= v < |s.threads| && s.threads[v].Told?;
        assert Enabled(s, Repost(v));
      }
  }

  function Weight(k: Worker): nat {
    match k
    case Holding(_) => 4
    case Running(_) => 3
    case Ready => 2
    case Told => 1
    case Exited => 0
  }

  function Weights(threads: seq<Worker>): nat {
    if threads == [] then 0 else Weights(threads[..|threads| - 1]) + Weight(threads[|threads| - 1])
  }

  function Items(queue: seq<Entry>): nat {
    |queue| - Sentinels(queue)
  }

  /** Work left: three steps for each queued item, and what each worker has still to do. */
  function Work(s: State): nat {
    3 * Items(s.queue) + Weights(s.threads)
  }

  lemma {:induction false} WeightsSet(threads: seq<Worker>, w: nat, k: Worker)
    requires w < |threads|
    ensures Weights(threads[w := k]) + Weight(threads[w]) == Weights(threads) + Weight(k)
  {
    var front := threads[..|threads| - 1];
    if w == |threads| - 1 {
      assert threads[w := k][..|threads| - 1] == front;
    } else {
      assert threads[w := k][..|threads| - 1] == front[w := k];
      WeightsSet(front, w, k);
    }
  }

  /** After shutdown every worker step uses up work and no other step adds any: the workers stop. */
  lemma ShutdownTerminates(s: State, a: Action)
    requires Inv(s) && s.shutdown && Enabled(s, a)
    ensures Apply(s, a).shutdown
    ensures Work(Apply(s, a)) <= Work(s)
    ensures WorkerStep(a) ==> Work(Apply(s, a)) < Work(s)
  {
    var s' := Apply(s, a);
    SentinelsAppend(s.queue, Sentinel);
    if WorkerStep(a) {
      WeightsSet(s.threads, a.w, s'.threads[a.w]);
      assert s'.threads == s.threads[a.w := s'.threads[a.w]];
      if a.Take? {
        SentinelsOf(s.queue);
      }
    }
  }

  /** So a run that has reached shutdown with work left takes at most that many further worker steps. */
  lemma {:induction false} AtMostWorkSteps(maxWorkers: nat, states: seq<State>, actions: seq<Action>, m: nat, n: nat)
    requires IsRun(maxWorkers, states, actions) && m <= n <= |actions| && states[m].shutdown
    ensures states[n].shutdown && WorkerSteps(actions[m..n]) + Work(states[n]) <= Work(states[m])
    decreases n - m
  {
    hide Inv, Work, Apply, Enabled, Initial;
    if n == m {
      assert actions[m..n] == [];
    } else {
      AtMostWorkSteps(maxWorkers, states, actions, m, n - 1);
      RunKeepsInv(maxWorkers, states, actions, n - 1);
      assert Follows(states[n - 1], actions[n - 1], states[n]);
      ShutdownTerminates(states[n - 1], actions[n - 1]);
      assert actions[m..n] == actions[m..n - 1] + [actions[n - 1]];
      assert actions[m..n][..n - m - 1] == actions[m..n - 1];
    }
  }

  function WorkerSteps(actions: seq<Action>): nat {
    if actions == [] then 0
    else WorkerSteps(actions[..|actions| - 1]) + if WorkerStep(actions[|actions| - 1]) then 1 else 0
  }

  // ------------------------------------------------------------------
  // The executor
  // ------------------------------------------------------------------

  class ThreadPoolExecutor {
    const maxWorkers: nat
    var queue: seq<Entry>
    var threads: seq<Worker>
    var status: seq<Status>
    var runs: seq<nat>
    var down: bool
    var shutdowns: nat

    function View(): State
      reads this
    {
      State(maxWorkers, queue, threads, status, runs, down, shutdowns)
    }

    constructor (maxWorkers: nat)
      ensures this.maxWorkers == maxWorkers && View() == Initial(maxWorkers)
    {
      this.maxWorkers := maxWorkers;
      queue, threads, status, runs, down, shutdowns := [], [], [], [], false, 0;
    }

    /** submit, under the shutdown lock; None is the RuntimeError after shutdown. */
    method SubmitItem() returns (id: Option<nat>)
      requires Inv(View())
      modifies this
      ensures Inv(View()) && View() == Apply(old(View()), Submit)
      ensures id == if old(down) then None else Some(|old(status)|)
    {
      LengthsAgree(View());
      hide Inv;
      Turn(View(), Submit);
      if down {
        return None;
      }
      id := Some(|status|);
      queue := queue + [Item(|status|)];
      status, runs := status + [Pending], runs + [0];
      AdjustThreadCount();
    }

    method AdjustThreadCount()
      modifies this`threads
      ensures threads == if |old(threads)| < maxWorkers then old(threads) + [Ready] else old(threads)
    {
      if |threads| < maxWorkers {
        threads := threads + [Ready];
      }
    }

    /** shutdown without waiting. */
    method ShutDown()
      requires Inv(View())
      modifies this
      ensures Inv(View()) && View() == Apply(old(View()), Shutdown)
    {
      hide Inv;
      Turn(View(), Shutdown);
      down, shutdowns := true, shutdowns + 1;
      queue := queue + [Sentinel];
    }

    /** The worker's get; a sentinel found while the pool is up is dropped. */
    method Get(w: nat)
      requires Inv(View()) && Enabled(View(), Take(w))
      modifies this
      ensures Inv(View()) && View() == Apply(old(View()), Take(w))
    {
      Turn(View(), Take(w));
      var entry := queue[0];
      queue := queue[1..];
      if entry.Item? {
        threads := threads[w := Holding(entry.id)];
      } else if down {
        threads := threads[w := Told];
      }
    }

    /** _WorkItem.run: nothing for a cancelled future, otherwise run and set the outcome. */
    method RunItem(w: nat)
      requires Inv(View()) && Enabled(View(), Begin(w))
      modifies this
      ensures Inv(View())
      ensures var begun := Apply(old(View()), Begin(w));
        View() == if begun.threads[w].Running? then Apply(begun, Finish(w)) else begun
    {
      hide Inv;
      Turn(View(), Begin(w));
      var id := threads[w].id;
      if status[id].Cancelled? {
        status, threads := status[id := Noticed], threads[w := Ready];
        return;
      }
      status, runs, threads := status[id := Active], runs[id := runs[id] + 1], threads[w := Running(id)];
      Turn(View(), Finish(w));
      status, threads := status[id := Finished], threads[w := Ready];
    }

    /** The exit of a worker: the sentinel goes back for the next one. */
    method PostAgain(w: nat)
      requires Inv(View()) && Enabled(View(), Repost(w))
      modifies this
      ensures Inv(View()) && View() == Apply(old(View()), Repost(w))
    {
      hide Inv;
      Turn(View(), Repost(w));
      queue := queue + [Sentinel];
      threads := threads[w := Exited];
    }

    /** One turn of the worker loop: true when the worker returns. */
    method WorkerTurn(w: nat) returns (done: bool)
      requires Inv(View()) && Enabled(View(), Take(w))
      modifies this
      ensures Inv(View())
      ensures done <==> old(queue[0]).Sentinel?
      ensures w < |threads| && threads[w] == if done then Exited else Ready
      ensures done ==> queue == old(queue)[1..] + [Sentinel] && status == old(status) && runs == old(runs)
    {
      hide Placed, OnceQueued, OnceOwned, ItemsFirst, NoItems, SomeoneTold, Sentinels, ToldCount;
      if queue[0].Sentinel? {
        SentinelMeansDown(View());
      }
      Get(w);
      done := threads[w].Told?;
      if done {
        PostAgain(w);
      } else {
        HoldingFits(View(), w);
        RunItem(w);
      }
    }
  }

  lemma LengthsAgree(s: State)
    requires Inv(s)
    ensures Enabled(s, Submit)
  {
  }

  lemma HoldingFits(s: State, w: nat)
    requires Inv(s) && w < |s.threads| && s.threads[w].Holding?
    ensures Enabled(s, Begin(w))
  {
    assert WorkerFits(s, s.threads[w]);
  }

  lemma Turn(s: State, a: Action)
    requires Inv(s) && Enabled(s, a)
    ensures Inv(Apply(s, a))
  {
    StepKeepsPartition(s, a);
    StepKeepsProtocol(s, a);
  }

  /** A worker that meets a sentinel finds the pool shut down. */
  lemma SentinelMeansDown(s: State)
    requires Inv(s) && s.queue != [] && s.queue[0].Sentinel?
    ensures s.shutdown
  {
    SentinelsOf(s.queue);
  }
}
