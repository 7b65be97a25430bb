/**
 Endless schedules in which every thread, handler and wire gets a turn again and again. Such a
 schedule brings the PS to its exit if and only if no flag is lost before the last merge; with three
 rounds or more there are some that do not.
 */
module Fairness {
  import opened Arith
  import opened Link
  import opened Rounds
  import opened Invariant
  import opened Progress
  import opened Liveness
  import opened Clusters

  type Turns = nat -> Actor

  function Prefix(f: Turns, n: nat): (r: seq<Actor>)
    ensures |r| == n
    ensures forall k | 0 <= k < n :: r[k] == f(k)
  {
    seq(n, k requires k >= 0 => f(k))
  }

  /** The state after n turns. */
  function At(cfg: Config, s: State, f: Turns, n: nat): State {
    Scheduled(cfg, s, Prefix(f, n))
  }

  /** Turn n is not spent waiting. */
  predicate Moves(cfg: Config, s: State, f: Turns, n: nat) {
    !Exited(cfg, At(cfg, s, f, n)) && Enabled(At(cfg, s, f, n), f(n))
  }

  ghost predicate Recurs(f: Turns, a: Actor, n: nat) {
    exists m: nat :: n <= m && f(m) == a
  }

  /** Every actor of the system gets a turn after every point. */
  ghost predicate Fair(cfg: Config, f: Turns) {
    forall a: Actor, n: nat | a.Merger? || a.i < |cfg.init| :: Recurs(f, a, n)
  }

  // ---------- Turns one by one ----------

  lemma {:induction false} ScheduledJoin(cfg: Config, s: State, a: seq<Actor>, b: seq<Actor>)
    ensures Scheduled(cfg, s, a + b) == Scheduled(cfg, Scheduled(cfg, s, a), b)
    decreases |a|
  {
    hide Step, Enabled;
    if a == [] {
      assert a + b == b;
    } else if !Exited(cfg, s) {
      assert (a + b)[1..] == a[1..] + b;
      ScheduledJoin(cfg, if Enabled(s, a[0]) then Step(cfg, s, a[0]) else s, a[1..], b);
    }
  }

  lemma OneTurn(cfg: Config, s: State, f: Turns, n: nat)
    ensures At(cfg, s, f, n + 1) ==
            if Moves(cfg, s, f, n) then Step(cfg, At(cfg, s, f, n), f(n)) else At(cfg, s, f, n)
  {
    hide Step, Enabled;
    assert Prefix(f, n + 1) == Prefix(f, n) + [f(n)];
    ScheduledJoin(cfg, s, Prefix(f, n), [f(n)]);
  }

  lemma AtIsReachable(cfg: Config, s: State, f: Turns, n: nat)
    requires ValidConfig(cfg) && Init(cfg, s)
    ensures Reachable(cfg, At(cfg, s, f, n))
    ensures Inv(cfg, At(cfg, s, f, n)) && At(cfg, s, f, n).iterT <= cfg.rounds
  {
    assert Runs(cfg, s, [], s);
    ScheduledIsReachable(cfg, s, Prefix(f, n));
    ReachableWithin(cfg, At(cfg, s, f, n));
  }

  // ---------- Fair schedules without a lost flag end ----------

  /** Polling changes nothing but where CanMerge reads next. */
  lemma PollingChangesNothing(cfg: Config, s: State, b: Actor, a: Actor)
    requires ValidConfig(cfg) && Inv(cfg, s) && Enabled(s, b) && !Productive(s, b) && Productive(s, a)
    ensures Productive(Step(cfg, s, b), a) && Step(cfg, s, b).iterT == s.iterT
    ensures Pos(cfg, Step(cfg, s, b)) == Pos(cfg, s)
  {
    StepAdvances(cfg, s, b);
    hide WorkerOk, Pos, CanSender, CanReceiver, CanLinkPart;
  }

  /** If a could make progress now and gets turn m, progress is made by then. */
  lemma {:induction false} ProgressBy(cfg: Config, s: State, f: Turns, n: nat, m: nat) returns (k: nat)
    requires ValidConfig(cfg) && Init(cfg, s) && n <= m
    requires !Exited(cfg, At(cfg, s, f, n)) && Productive(At(cfg, s, f, n), f(m))
    ensures Pos(cfg, At(cfg, s, f, k)) > Pos(cfg, At(cfg, s, f, n))
    decreases m - n
  {
    hide At, Step, Productive, Pos, Inv;
    var t := At(cfg, s, f, n);
    AtIsReachable(cfg, s, f, n);
    OneTurn(cfg, s, f, n);
    if Moves(cfg, s, f, n) && Productive(t, f(n)) {
      StepAdvances(cfg, t, f(n));
      k := n + 1;
    } else {
      assert n < m by { assert Productive(t, f(m)) ==> Enabled(t, f(m)) by { ProductiveIsEnabled(t, f(m)); } }
      if Moves(cfg, s, f, n) {
        PollingChangesNothing(cfg, t, f(n), f(m));
      }
      k := ProgressBy(cfg, s, f, n + 1, m);
    }
  }

  lemma ProductiveIsEnabled(s: State, a: Actor)
    requires Productive(s, a)
    ensures Enabled(s, a)
  {
  }

  /** Before the exit somebody can make progress: without a lost flag, or with only `iter_t++` to do. */
  lemma UndoomedMoves(cfg: Config, s: State) returns (a: Actor)
    requires ValidConfig(cfg) && Inv(cfg, s) && !Exited(cfg, s) && !Doomed(cfg, s)
    ensures Productive(s, a) && (a.Merger? || a.i < |cfg.init|)
  {
    hide WorkerOk, NoneLost;
    a := SomeoneMoves(cfg, s);
  }

  lemma {:induction false} FairExits(cfg: Config, s: State, f: Turns, n: nat) returns (m: nat)
    requires ValidConfig(cfg) && Init(cfg, s) && Fair(cfg, f)
    requires forall k: nat :: !Doomed(cfg, At(cfg, s, f, k))
    ensures Exited(cfg, At(cfg, s, f, m))
    decreases Bound(cfg) - Pos(cfg, At(cfg, s, f, n))
  {
    hide At, Productive, Pos, Inv, Doomed;
    AtIsReachable(cfg, s, f, n);
    if Exited(cfg, At(cfg, s, f, n)) {
      m := n;
    } else {
      var a := UndoomedMoves(cfg, At(cfg, s, f, n));
      assert Recurs(f, a, n);
      var turn: nat :| n <= turn && f(turn) == a;
      var k := ProgressBy(cfg, s, f, n, turn);
      AtIsReachable(cfg, s, f, k);
      PosBounded(cfg, At(cfg, s, f, k));
      m := FairExits(cfg, s, f, k);
    }
  }

  lemma DoomedStaysInside(cfg: Config, s: State, f: Turns, k: nat, n: nat)
    requires ValidConfig(cfg) && Init(cfg, s) && Doomed(cfg, At(cfg, s, f, k))
    ensures !Exited(cfg, At(cfg, s, f, n))
  {
    var last := if k <= n then n else k;
    AtIsReachable(cfg, s, f, k);
    hide Doomed, Inv;
    assert Prefix(f, last) == Prefix(f, k) + Prefix(f, last)[k..];
    ScheduledJoin(cfg, s, Prefix(f, k), Prefix(f, last)[k..]);
    var acts := ScheduledRuns(cfg, At(cfg, s, f, k), Prefix(f, last)[k..]);
    DoomedNeverExits(cfg, At(cfg, s, f, k), acts, At(cfg, s, f, last));
    assert Prefix(f, last) == Prefix(f, n) + Prefix(f, last)[n..];
    ScheduledJoin(cfg, s, Prefix(f, n), Prefix(f, last)[n..]);
  }

  /** The exact condition: a fair schedule ends if and only if no flag is lost before the last merge. */
  lemma FairScheduleEndsIffNeverDoomed(cfg: Config, s: State, f: Turns)
    requires ValidConfig(cfg) && Init(cfg, s) && Fair(cfg, f)
    ensures (exists n: nat :: Exited(cfg, At(cfg, s, f, n))) <==> (forall k: nat :: !Doomed(cfg, At(cfg, s, f, k)))
  {
    hide At, Doomed;
    if forall k: nat :: !Doomed(cfg, At(cfg, s, f, k)) {
      var n := FairExits(cfg, s, f, 0);
    } else {
      var k: nat :| Doomed(cfg, At(cfg, s, f, k));
      forall n: nat ensures !Exited(cfg, At(cfg, s, f, n)) {
        DoomedStaysInside(cfg, s, f, k, n);
      }
    }
  }

  // ---------- Prompt schedules ----------

  /** No turn raises a flag while the clear for the previous frame is pending. */
  ghost predicate PromptSchedule(cfg: Config, s: State, f: Turns) {
    forall n: nat :: Moves(cfg, s, f, n) ==> !Overtakes(At(cfg, s, f, n), f(n))
  }

  /** Post and clear as one step. */
  ghost predicate AtomicSchedule(cfg: Config, s: State, f: Turns) {
    forall n: nat :: Moves(cfg, s, f, n) ==> Atomic(At(cfg, s, f, n), f(n))
  }

  lemma {:induction false} PromptLosesNothing(cfg: Config, s: State, f: Turns, n: nat)
    requires ValidConfig(cfg) && Init(cfg, s) && PromptSchedule(cfg, s, f)
    ensures NoneLost(At(cfg, s, f, n))
  {
    hide Inv;
    if n == 0 {
      assert At(cfg, s, f, 0) == s;
      InitLosesNothing(cfg, s);
    } else {
      hide At, NoneLost;
      PromptLosesNothing(cfg, s, f, n - 1);
      AtIsReachable(cfg, s, f, n - 1);
      OneTurn(cfg, s, f, n - 1);
      if Moves(cfg, s, f, n - 1) {
        StepKeepsUnlost(cfg, At(cfg, s, f, n - 1), f(n - 1));
      }
    }
  }

  /** If every clear comes before the next flag, a fair schedule ends. */
  lemma PromptSchedulesEnd(cfg: Config, s: State, f: Turns)
    requires ValidConfig(cfg) && Init(cfg, s) && Fair(cfg, f) && PromptSchedule(cfg, s, f)
    ensures exists n: nat :: Exited(cfg, At(cfg, s, f, n))
  {
    forall k: nat ensures !Doomed(cfg, At(cfg, s, f, k)) {
      PromptLosesNothing(cfg, s, f, k);
    }
    FairScheduleEndsIffNeverDoomed(cfg, s, f);
  }

  /** In particular, if post and clear are one step. */
  lemma AtomicSchedulesEnd(cfg: Config, s: State, f: Turns)
    requires ValidConfig(cfg) && Init(cfg, s) && Fair(cfg, f) && AtomicSchedule(cfg, s, f)
    ensures exists n: nat :: Exited(cfg, At(cfg, s, f, n))
  {
    PromptSchedulesEnd(cfg, s, f);
  }

  // ---------- Fair schedules exist, ending ones and others ----------

  /** The actors of n workers in some order: `ActorNo(c)` for c from 0 to 13 n. */
  function ActorNo(c: nat): Actor {
    if c == 0 then Merger
    else
      var i, k := (c - 1) / 13, (c - 1) % 13;
      if k == 12 then Compute(i) else On(i, if k < 6 then Down else Up, PartNo(k % 6))
  }

  function PartNo(k: nat): Part {
    match k
    case 0 => Sender
    case 1 => Client
    case 2 => Ctl
    case 3 => Write
    case 4 => Server
    case _ => Receiver
  }

  function NumberOf(a: Actor): nat {
    match a
    case Merger => 0
    case Compute(i) => 13 * i + 13
    case On(i, d, part) =>
      13 * i + 1 + (if d.Down? then 0 else 6) +
      match part {
        case Sender => 0
        case Client => 1
        case Ctl => 2
        case Write => 3
        case Server => 4
        case Receiver => 5
      }
  }

  lemma EveryActorHasANumber(a: Actor)
    ensures ActorNo(NumberOf(a)) == a
  {
    match a
    case Merger =>
    case Compute(_) =>
    case On(_, _, part) => match part { case _ => }
  }

  /** First `acts`, then all actors in turn, for ever. */
  function ThenAll(cfg: Config, acts: seq<Actor>): Turns {
    (m: nat) => if m < |acts| then acts[m] else ActorNo((m - |acts|) % (13 * |cfg.init| + 1))
  }

  lemma ThenAllIsFair(cfg: Config, acts: seq<Actor>)
    ensures Fair(cfg, ThenAll(cfg, acts)) && Prefix(ThenAll(cfg, acts), |acts|) == acts
  {
    var f, len := ThenAll(cfg, acts), 13 * |cfg.init| + 1;
    forall a: Actor, n: nat | a.Merger? || a.i < |cfg.init| ensures Recurs(f, a, n) {
      EveryActorHasANumber(a);
      assert NumberOf(a) < len;
      Division(n * len + NumberOf(a), len, n, NumberOf(a));
      var m := |acts| + (n * len + NumberOf(a));
      MulMonotone(1, len, n);
      assert f(m) == a;
    }
  }

  ghost predicate NeverEnds(cfg: Config, s: State, f: Turns) {
    forall n: nat :: !Exited(cfg, At(cfg, s, f, n))
  }

  /** Fairness is not enough: from three rounds on, and only then, some fair schedule never ends. */
  lemma FairScheduleHangsIffThreeRounds(cfg: Config)
    requires ValidConfig(cfg)
    ensures (exists s, f :: Init(cfg, s) && Fair(cfg, f) && NeverEnds(cfg, s, f)) <==> 3 <= cfg.rounds
  {
    hide At, Doomed, Fair;
    DoomIffThreeRounds(cfg);
    if 3 <= cfg.rounds {
      var t :| Reachable(cfg, t) && Doomed(cfg, t);
      var s, acts :| Init(cfg, s) && Runs(cfg, s, acts, t);
      var f := ThenAll(cfg, acts);
      ThenAllIsFair(cfg, acts);
      assert At(cfg, s, f, |acts|) == t by { AtEndOfRun(cfg, s, acts, t, f); }
      forall n: nat ensures !Exited(cfg, At(cfg, s, f, n)) {
        DoomedStaysInside(cfg, s, f, |acts|, n);
      }
      assert NeverEnds(cfg, s, f);
    } else {
      forall s, f | Init(cfg, s) && Fair(cfg, f) ensures !NeverEnds(cfg, s, f) {
        forall k: nat ensures !Doomed(cfg, At(cfg, s, f, k)) {
          AtIsReachable(cfg, s, f, k);
        }
        FairScheduleEndsIffNeverDoomed(cfg, s, f);
      }
    }
  }

  lemma AtEndOfRun(cfg: Config, s: State, acts: seq<Actor>, t: State, f: Turns)
    requires Runs(cfg, s, acts, t) && Prefix(f, |acts|) == acts
    ensures At(cfg, s, f, |acts|) == t
  {
    RunIsScheduled(cfg, s, acts, t);
  }

  lemma {:induction false} AtomicAt(cfg: Config, s: State, acts: seq<Actor>, t: State, n: nat)
    requires Runs(cfg, s, acts, t) && AtomicPosts(cfg, s, acts) && n < |acts|
    ensures Atomic(Scheduled(cfg, s, acts[..n]), acts[n])
    decreases |acts|
  {
    hide Step, Enabled, Atomic;
    if n > 0 {
      AtomicAt(cfg, Step(cfg, s, acts[0]), acts[1..], t, n - 1);
      assert acts[1..][..n - 1] == acts[..n][1..];
    }
  }

  /** Fair schedules in which post and clear are one step exist, whatever the number of rounds. */
  lemma FairAtomicScheduleExists(cfg: Config) returns (s: State, f: Turns)
    requires ValidConfig(cfg)
    ensures Init(cfg, s) && Fair(cfg, f) && AtomicSchedule(cfg, s, f)
  {
    s := Start(cfg);
    InitHolds(cfg, s);
    InitLosesNothing(cfg, s);
    var acts, t := CanFinish(cfg, s);
    f := ThenAll(cfg, acts);
    ThenAllIsFair(cfg, acts);
    hide Fair, ThenAll, Step, Enabled, Atomic, Exited;
    AtEndOfRun(cfg, s, acts, t, f);
    forall n: nat | Moves(cfg, s, f, n) ensures Atomic(At(cfg, s, f, n), f(n)) {
      if n < |acts| {
        assert Prefix(f, n) == acts[..n] && f(n) == acts[n];
        AtomicAt(cfg, s, acts, t, n);
      } else {
        assert Prefix(f, n) == acts + Prefix(f, n)[|acts|..];
        ScheduledJoin(cfg, s, acts, Prefix(f, n)[|acts|..]);
      }
    }
  }
}
