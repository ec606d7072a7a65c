// The schedule signal as a lock: conditional updates of the job row with a
// timeout, first as the wrapper runs them, then as interleaved steps of any
// number of schedulers.
module ScheduleLock {
  import opened Common

  /** ready_timeout_ttl, in milliseconds. */
  const TTL: nat := 10 * 6000

  // ------------------------------------------------------------------
  // The calls, one scheduler at a time
  // ------------------------------------------------------------------

  class JobRow {
    var signal: bool
    var stamp: Option<nat>

    constructor ()
      ensures !signal && stamp == None
    {
      signal, stamp := false, None;
    }

    /** A set signal carries the time it was set. */
    predicate Valid()
      reads this
    {
      signal <==> stamp.Some?
    }

    /** schedule_signal; now is the time written, later the clock read by the timeout test of a failed set. */
    method ScheduleSignal(up: bool, now: nat, later: nat) returns (updated: bool)
      requires Valid()
      modifies this
      ensures Valid()
      ensures updated <==> old(signal) != up
      ensures updated ==> signal == up && stamp == if up then Some(now) else None
      ensures !updated && !up ==> signal == old(signal) && stamp == old(stamp)
      ensures !updated && up ==> signal == (later - old(stamp.value) <= TTL) && (signal ==> stamp == old(stamp))
    {
      updated := signal != up;
      if updated {
        signal := up;
        stamp := if up then Some(now) else None;
      }
      if up && !updated {
        ScheduleTimeoutSignal(later);
      }
    }

    /** schedule_timeout_signal: a signal older than the limit is taken down. */
    method ScheduleTimeoutSignal(later: nat)
      requires Valid() && signal
      modifies this
      ensures Valid()
      ensures signal == (later - old(stamp.value) <= TTL) && (signal ==> stamp == old(stamp))
    {
      if later - stamp.value > TTL {
        signal, stamp := false, None;
      }
    }

    /** The schedule_lock wrapper around a body that may raise.  With lock, the body runs exactly if the signal was
        down, and every exit leaves it down; without, the row is not touched, so a nested call does not lock again. */
    method ScheduleLocked(lock: bool, now: nat, later: nat, raises: bool) returns (ran: bool, raised: bool)
      requires Valid()
      modifies this
      ensures Valid()
      ensures ran <==> !lock || !old(signal)
      ensures raised <==> ran && raises
      ensures !lock ==> signal == old(signal) && stamp == old(stamp)
      ensures lock && ran ==> !signal
      ensures lock && !ran ==> signal == (later - old(stamp.value) <= TTL)
    {
      if !lock {
        return true, raises;
      }
      var updated := ScheduleSignal(true, now, later);
      if !updated {
        return false, false;
      }
      ran, raised := true, raises;
      updated := ScheduleSignal(false, later, later);
    }
  }

  // ------------------------------------------------------------------
  // Any number of schedulers
  // ------------------------------------------------------------------

  /** Where one scheduler is: about to try with a clock reading; inside; turned away; holding the row it queried; or
      convinced that the row is stale. */
  datatype Proc = Idle | Stamped(now: nat) | Inside(since: nat) | TurnedAway | Saw(stamp: nat, at: nat) | Stale

  datatype State = State(time: nat, signal: bool, stamp: nat, procs: seq<Proc>)

  datatype Action =
    | Tick(ms: nat)
    | ReadStamp(p: nat)
    | TrySet(p: nat)
    | QueryRow(p: nat)
    | ReadClock(p: nat)
    | Reset(p: nat)
    | Release(p: nat)

  /** hold: how long after its clock reading a holder may still be inside; gap: how long a challenger may take from
      querying the row to reading the clock. */
  datatype Bounds = Bounds(hold: nat, gap: nat)

  ghost predicate InTime(b: Bounds, s: State) {
    forall p: nat :: p < |s.procs| ==> ProcInTime(b, s.time, s.procs[p])
  }

  predicate ProcInTime(b: Bounds, time: nat, proc: Proc) {
    && (proc.Inside? ==> time <= proc.since + b.hold)
    && (proc.Saw? ==> time <= proc.at + b.gap)
  }

  predicate Enabled(s: State, a: Action) {
    match a
    case Tick(_) => true
    case ReadStamp(p) => p < |s.procs| && s.procs[p].Idle?
    case TrySet(p) => p < |s.procs| && s.procs[p].Stamped?
    case QueryRow(p) => p < |s.procs| && s.procs[p].TurnedAway?
    case ReadClock(p) => p < |s.procs| && s.procs[p].Saw?
    case Reset(p) => p < |s.procs| && s.procs[p].Stale?
    case Release(p) => p < |s.procs| && s.procs[p].Inside?
  }

  function Apply(s: State, a: Action): State
    requires Enabled(s, a)
  {
    match a
    case Tick(ms) => s.(time := s.time + ms)
    case ReadStamp(p) => s.(procs := s.procs[p := Stamped(s.time)])
    case TrySet(p) =>
      if !s.signal
      then s.(signal := true, stamp := s.procs[p].now, procs := s.procs[p := Inside(s.procs[p].now)])
      else s.(procs := s.procs[p := TurnedAway])
    case QueryRow(p) => s.(procs := s.procs[p := if s.signal then Saw(s.stamp, s.time) else Idle])
    case ReadClock(p) =>
      s.(procs := s.procs[p := if s.time - s.procs[p].stamp > TTL then Stale else Idle])
    case Reset(p) => s.(signal := false, procs := s.procs[p := Idle])
    case Release(p) => s.(signal := false, procs := s.procs[p := Idle])
  }

  ghost predicate Initial(s: State) {
    !s.signal && forall p: nat :: p < |s.procs| ==> s.procs[p] == Idle
  }

  ghost predicate Follows(b: Bounds, s: State, a: Action, s': State) {
    Enabled(s, a) && s' == Apply(s, a) && InTime(b, s')
  }

  ghost predicate IsRun(b: Bounds, states: seq<State>, actions: seq<Action>) {
    && |states| == |actions| + 1 && Initial(states[0])
    && forall i :: 0 <= i < |actions| ==> Follows(b, states[i], actions[i], states[i + 1])
  }

  ghost predicate Exclusive(s: State) {
    forall p: nat, q: nat :: p < |s.procs| && q < |s.procs| && s.procs[p].Inside? && s.procs[q].Inside? ==> p == q
  }

  // ------------------------------------------------------------------
  // Safety
  // ------------------------------------------------------------------

  predicate ProcFine(b: Bounds, s: State, proc: Proc) {
    && !proc.Stale?
    && (proc.Stamped? ==> proc.now <= s.time)
    && (proc.Inside? ==> s.signal && proc.since == s.stamp)
    && (proc.Saw? ==> proc.at <= proc.stamp + b.hold)
  }

  /** The signal is up exactly while one scheduler is inside, and nobody believes the row is stale. */
  ghost predicate Inv(b: Bounds, s: State) {
    && Exclusive(s) && InTime(b, s)
    && (forall p: nat :: p < |s.procs| ==> ProcFine(b, s, s.procs[p]))
    && (s.signal ==> exists p: nat :: p < |s.procs| && s.procs[p] == Inside(s.stamp))
  }

  /** A step of scheduler p alone: what must hold of p after it. */
  lemma OneMoves(b: Bounds, s: State, s': State, p: nat)
    requires Inv(b, s) && p < |s.procs| && |s'.procs| == |s.procs| && s'.time == s.time && InTime(b, s')
    requires forall q: nat :: q < |s.procs| && q != p ==> s'.procs[q] == s.procs[q]
    requires s'.signal == s.signal && s'.stamp == s.stamp
    requires !s.procs[p].Inside? && !s'.procs[p].Inside? && ProcFine(b, s', s'.procs[p])
    ensures Inv(b, s')
  {
    forall q: nat | q < |s'.procs| ensures ProcFine(b, s', s'.procs[q]) {
      assert q != p ==> ProcFine(b, s, s.procs[q]);
    }
    forall q: nat, r: nat | q < |s'.procs| && r < |s'.procs| && s'.procs[q].Inside? && s'.procs[r].Inside? ensures q == r {
      assert s.procs[q].Inside? && s.procs[r].Inside?;
    }
    HolderStays(s, s', p);
  }

  lemma StepKeepsInv(b: Bounds, s: State, a: Action, s': State)
    requires b.hold + b.gap <= TTL && Inv(b, s) && Follows(b, s, a, s')
    ensures Inv(b, s')
  {
    match a
    case Tick(_) =>
      TickKeepsInv(b, s, a, s');
    case ReadStamp(p) =>
      OneMoves(b, s, s', p);
    case TrySet(p) =>
      assert ProcFine(b, s, s.procs[p]);
      if s.signal {
        OneMoves(b, s, s', p);
      } else {
        EnterKeepsInv(b, s, s', p);
      }
    case QueryRow(p) =>
      QueryIsFresh(b, s);
      OneMoves(b, s, s', p);
    case ReadClock(p) =>
      assert ProcFine(b, s, s.procs[p]) && ProcInTime(b, s.time, s.procs[p]);
      OneMoves(b, s, s', p);
    case Reset(_) =>
    case Release(p) =>
      LeaveKeepsInv(b, s, s', p);
  }

  lemma TickKeepsInv(b: Bounds, s: State, a: Action, s': State)
    requires Inv(b, s) && a.Tick? && Follows(b, s, a, s')
    ensures Inv(b, s')
  {
    forall q: nat | q < |s'.procs| ensures ProcFine(b, s', s'.procs[q]) {
      assert ProcFine(b, s, s.procs[q]);
    }
    assert s'.procs == s.procs;
  }

  lemma EnterKeepsInv(b: Bounds, s: State, s': State, p: nat)
    requires Inv(b, s) && Enabled(s, TrySet(p)) && !s.signal && Follows(b, s, TrySet(p), s')
    ensures Inv(b, s')
  {
    forall q: nat | q < |s'.procs| ensures ProcFine(b, s', s'.procs[q]) && (s'.procs[q].Inside? ==> q == p) {
      assert ProcFine(b, s, s.procs[q]);
    }
    assert s'.procs[p] == Inside(s'.stamp);
  }

  lemma LeaveKeepsInv(b: Bounds, s: State, s': State, p: nat)
    requires Inv(b, s) && Enabled(s, Release(p)) && Follows(b, s, Release(p), s')
    ensures Inv(b, s')
  {
    forall q: nat | q < |s'.procs| ensures ProcFine(b, s', s'.procs[q]) && !s'.procs[q].Inside? {
      assert ProcFine(b, s, s.procs[q]);
      assert s.procs[q].Inside? ==> q == p;
    }
  }

  /** A signal that is up was stamped no longer ago than a holder may stay. */
  lemma QueryIsFresh(b: Bounds, s: State)
    requires Inv(b, s)
    ensures s.signal ==> s.time <= s.stamp + b.hold
  {
    if s.signal {
      var q: nat :| q < |s.procs| && s.procs[q] == Inside(s.stamp);
      assert ProcInTime(b, s.time, s.procs[q]);
    }
  }

  /** A step of a scheduler that is not inside leaves the holder inside. */
  lemma HolderStays(s: State, s': State, p: nat)
    requires s.signal ==> exists q: nat :: q < |s.procs| && s.procs[q] == Inside(s.stamp)
    requires s'.signal == s.signal && s'.stamp == s.stamp && p < |s.procs| && !s.procs[p].Inside?
    requires forall q: nat :: q < |s.procs| && q != p ==> q < |s'.procs| && s'.procs[q] == s.procs[q]
    ensures s'.signal ==> exists q: nat :: q < |s'.procs| && s'.procs[q] == Inside(s'.stamp)
  {
    if s.signal {
      var q: nat :| q < |s.procs| && s.procs[q] == Inside(s.stamp);
      assert s'.procs[q] == Inside(s'.stamp);
    }
  }

  lemma {:induction false} RunKeepsInv(b: Bounds, states: seq<State>, actions: seq<Action>, n: nat)
    requires b.hold + b.gap <= TTL && IsRun(b, states, actions) && n <= |actions|
    ensures Inv(b, states[n])
  {
    if n > 0 {
      RunKeepsInv(b, states, actions, n - 1);
      assert Follows(b, states[n - 1], actions[n - 1], states[n]);
      StepKeepsInv(b, states[n - 1], actions[n - 1], states[n]);
    }
  }

  // ------------------------------------------------------------------
  // What the stamp is
  // ------------------------------------------------------------------

  predicate ReadsAt(s: State, a: Action, p: nat, time: nat) {
    a == ReadStamp(p) && s.time == time
  }

  /** Before step n scheduler p read the clock when it showed this time. */
  ghost predicate HasRead(states: seq<State>, actions: seq<Action>, n: nat, p: nat, time: nat)
    requires n <= |actions| < |states|
  {
    exists m :: 0 <= m < n && ReadsAt(states[m], actions[m], p, time)
  }

  /** Every stamp is an earlier clock reading: that of the scheduler that is about to try, of the one inside, and for the
      row that of one who set it; so a hold counts from before the row was set. */
  ghost predicate StampsAreReadings(states: seq<State>, actions: seq<Action>, n: nat)
    requires n <= |actions| < |states|
  {
    var s := states[n];
    && (forall p: nat :: p < |s.procs| && s.procs[p].Stamped? ==> HasRead(states, actions, n, p, s.procs[p].now))
    && (forall p: nat :: p < |s.procs| && s.procs[p].Inside? ==> HasRead(states, actions, n, p, s.procs[p].since))
    && (s.signal ==> exists p: nat :: HasRead(states, actions, n, p, s.stamp))
  }

  lemma {:induction false} StampIsReading(b: Bounds, states: seq<State>, actions: seq<Action>, n: nat)
    requires IsRun(b, states, actions) && n <= |actions|
    ensures StampsAreReadings(states, actions, n)
  {
    if n > 0 {
      StampIsReading(b, states, actions, n - 1);
      var s, a, s' := states[n - 1], actions[n - 1], states[n];
      assert Follows(b, s, a, s');
      forall p: nat, time: nat ensures
        HasRead(states, actions, n, p, time) <==> HasRead(states, actions, n - 1, p, time) || ReadsAt(s, a, p, time)
      {
      }
      if s'.signal {
        if s.signal {
          var p: nat :| HasRead(states, actions, n - 1, p, s.stamp);
          assert HasRead(states, actions, n, p, s'.stamp);
        } else {
          assert HasRead(states, actions, n, a.p, s'.stamp);
        }
      }
    }
  }

  // ------------------------------------------------------------------
  // The bound is exact
  // ------------------------------------------------------------------

  /** Scheduler 0 holds for the full time; 1 queries its row at the last moment and reads the clock at the last
      moment; 2 acquires in between and loses the signal to 1's reset, so 3 enters too. */
  function Clash(b: Bounds): seq<Action> {
    [ReadStamp(0), TrySet(0), ReadStamp(1), TrySet(1), Tick(b.hold), QueryRow(1), Release(0), Tick(b.gap),
     ReadStamp(2), TrySet(2), ReadClock(1), Reset(1), ReadStamp(3), TrySet(3)]
  }

  function ClashStates(b: Bounds): seq<State> {
    var h, t := b.hold, b.hold + b.gap;
    [State(0, false, 0, [Idle, Idle, Idle, Idle]),
     State(0, false, 0, [Stamped(0), Idle, Idle, Idle]),
     State(0, true, 0, [Inside(0), Idle, Idle, Idle]),
     State(0, true, 0, [Inside(0), Stamped(0), Idle, Idle]),
     State(0, true, 0, [Inside(0), TurnedAway, Idle, Idle]),
     State(h, true, 0, [Inside(0), TurnedAway, Idle, Idle]),
     State(h, true, 0, [Inside(0), Saw(0, h), Idle, Idle]),
     State(h, false, 0, [Idle, Saw(0, h), Idle, Idle]),
     State(t, false, 0, [Idle, Saw(0, h), Idle, Idle]),
     State(t, false, 0, [Idle, Saw(0, h), Stamped(t), Idle]),
     State(t, true, t, [Idle, Saw(0, h), Inside(t), Idle]),
     State(t, true, t, [Idle, Stale, Inside(t), Idle]),
     State(t, false, t, [Idle, Idle, Inside(t), Idle]),
     State(t, false, t, [Idle, Idle, Inside(t), Stamped(t)]),
     State(t, true, t, [Idle, Idle, Inside(t), Inside(t)])]
  }

  /** 0 acquires and 1 is turned away. */
  lemma FirstHolds(b: Bounds, i: nat)
    requires b.hold + b.gap > TTL && 0 <= i < 4
    ensures Follows(b, ClashStates(b)[i], Clash(b)[i], ClashStates(b)[i + 1])
  {
    assert Apply(ClashStates(b)[i], Clash(b)[i]).procs == ClashStates(b)[i + 1].procs;
  }

  /** 1 queries the row at the last moment, then 0 releases. */
  lemma ChallengerLooks(b: Bounds, i: nat)
    requires b.hold + b.gap > TTL && 4 <= i < 8
    ensures Follows(b, ClashStates(b)[i], Clash(b)[i], ClashStates(b)[i + 1])
  {
    assert Apply(ClashStates(b)[i], Clash(b)[i]).procs == ClashStates(b)[i + 1].procs;
  }

  /** 2 acquires, then 1 takes the row for stale and resets it. */
  lemma ChallengerResets(b: Bounds, i: nat)
    requires b.hold + b.gap > TTL && 8 <= i < 12
    ensures Follows(b, ClashStates(b)[i], Clash(b)[i], ClashStates(b)[i + 1])
  {
    assert Apply(ClashStates(b)[i], Clash(b)[i]).procs == ClashStates(b)[i + 1].procs;
  }

  /** 3 acquires as well. */
  lemma SecondEnters(b: Bounds, i: nat)
    requires b.hold + b.gap > TTL && 12 <= i < 14
    ensures Follows(b, ClashStates(b)[i], Clash(b)[i], ClashStates(b)[i + 1])
  {
    assert Apply(ClashStates(b)[i], Clash(b)[i]).procs == ClashStates(b)[i + 1].procs;
  }

  lemma ClashIsRun(b: Bounds)
    requires b.hold + b.gap > TTL
    ensures IsRun(b, ClashStates(b), Clash(b)) && !Exclusive(ClashStates(b)[14])
  {
    forall i | 0 <= i < 14 ensures Follows(b, ClashStates(b)[i], Clash(b)[i], ClashStates(b)[i + 1]) {
      if i < 4 {
        FirstHolds(b, i);
      } else if i < 8 {
        ChallengerLooks(b, i);
      } else if i < 12 {
        ChallengerResets(b, i);
      } else {
        SecondEnters(b, i);
      }
    }
    var last := ClashStates(b)[14];
    assert last.procs[2].Inside? && last.procs[3].Inside?;
  }

  ghost predicate AlwaysExclusive(b: Bounds) {
    forall states, actions, n: nat :: IsRun(b, states, actions) && n <= |actions| ==> Exclusive(states[n])
  }

  /** At most one scheduler is inside, over all interleavings, exactly when the longest hold plus the longest gap
      between a challenger's row query and its clock reading stay within the limit. */
  lemma ExclusiveIff(b: Bounds)
    ensures AlwaysExclusive(b) <==> b.hold + b.gap <= TTL
  {
    if b.hold + b.gap <= TTL {
      forall states, actions, n: nat | IsRun(b, states, actions) && n <= |actions| ensures Exclusive(states[n]) {
        RunKeepsInv(b, states, actions, n);
      }
    } else {
      ClashIsRun(b);
      assert !Exclusive(ClashStates(b)[14]);
    }
  }
}
