/**
 The log thread reads no more often than it is told to, and comes to rest: each
 read uses up a flag raised since the read before, and once nobody arrives any
 more, the thread ends asleep with the flag down, having read the last change.
 */
module LogProgress {
  import opened ReadersWriters
  import opened LogThread

  /** The flag is up while the log thread acts on it; and every change committed is announced by one call. */
  ghost predicate Exact(p: Plant) {
    && (p.log.WantsLedger? || p.log.HasRead? ==> p.dataChanged)
    && forall v: nat :: v in p.calls <==> 1 <= v <= p.version
  }

  lemma StepKeepsExact(p: Plant, s: Step)
    requires Exact(p) && CanStep(p, s)
    ensures Exact(Advance(p, s))
  {
  }

  lemma StepKeepsHealthy(p: Plant, s: Step)
    requires Healthy(p) && CanStep(p, s)
    ensures Healthy(Advance(p, s))
  {
    if LedgerStep(s) {
      LedgerStepHealthy(p, s);
    } else {
      FlagStepHealthy(p, s);
    }
  }

  // ----- reads and raises -----

  function Reads(steps: seq<Step>): nat {
    if steps == [] then 0 else (if steps[0].LogReads? then 1 else 0) + Reads(steps[1..])
  }

  function Raises(steps: seq<Step>): nat {
    if steps == [] then 0 else (if steps[0].RaiseFlag? then 1 else 0) + Raises(steps[1..])
  }

  /** A flag that is up and not yet acted on. */
  function Unread(p: Plant): nat {
    if p.dataChanged && !p.log.HasRead? then 1 else 0
  }

  lemma StepUsesFlag(p: Plant, s: Step)
    requires Ordered(p) && Exact(p) && CanStep(p, s)
    ensures Unread(Advance(p, s)) + (if s.LogReads? then 1 else 0) <= Unread(p) + (if s.RaiseFlag? then 1 else 0)
  {
  }

  /**
   Over every history, arrivals and spurious wakeups included: the log thread
   reads at most once for each flag raised, and not before it is raised.
   */
  lemma {:induction false} ReadsFollowRaises(p: Plant, steps: seq<Step>)
    requires Healthy(p) && Exact(p) && IsHistory(p, steps)
    ensures Reads(steps) + Unread(Later(p, steps)) <= Raises(steps) + Unread(p)
    decreases steps
  {
    if steps != [] {
      StepUsesFlag(p, steps[0]);
      StepKeepsHealthy(p, steps[0]);
      StepKeepsExact(p, steps[0]);
      ReadsFollowRaises(Advance(p, steps[0]), steps[1..]);
    }
  }

  lemma NeverMoreReadsThanRaises(p0: Plant, steps: seq<Step>)
    requires Initial(p0) && IsHistory(p0, steps)
    ensures Reads(steps) <= Raises(steps)
  {
    InitialIsHealthy(p0);
    ReadsFollowRaises(p0, steps);
  }

  // ----- the work left -----

  /** The threads inside the ledger's lock, the log thread apart. */
  function Others(l: Lock): int {
    Inside(l) - if LOG in l.place then 1 else 0
  }

  lemma OthersCount(l: Lock)
    ensures 0 <= Others(l) <= Inside(l) <= Others(l) + 1 && Waiting(l) <= Inside(l)
  {
    if LOG in l.place {
      CountZero(l, l.place[LOG]);
      assert l.At(LOG, l.place[LOG]);
    }
  }

  function StageWork(s: CallStage, k: nat): nat {
    match s
    case Calling => k + 10
    case InSection => k + 9
    case FlagRaised => 2
    case Returned => 0
  }

  function CallsWork(calls: map<nat, Call>, n: nat, k: nat): nat {
    if n == 0 then 0
    else CallsWork(calls, n - 1, k) + if n in calls then StageWork(calls[n].stage, k) else 0
  }

  /** What a raised flag will still cost; k is the cost of entering the ledger's lock. */
  function FlagWork(p: Plant, k: nat): nat {
    if !p.dataChanged then 0
    else if p.log.HasRead? then 2
    else if p.log.WantsLedger? then (if LOG in p.lock.place then 3 else k + 5)
    else k + 6
  }

  function ThreadWork(s: LogStage): nat {
    if s.Testing? || s.Notified? then 1 else 0
  }

  /** Bounds the steps left when no more than n threads are ever inside the lock. */
  function Work(p: Plant, n: nat): int {
    Potential(p.lock, n) + Others(p.lock) * (n + 12) + CallsWork(p.calls, p.version, n + 1)
    + FlagWork(p, n + 1) + ThreadWork(p.log)
  }

  lemma {:induction false} CallsWorkElsewhere(calls: map<nat, Call>, n: nat, k: nat, v: nat, c: Call)
    requires v > n
    ensures CallsWork(calls[v := c], n, k) == CallsWork(calls, n, k)
  {
    if n > 0 {
      CallsWorkElsewhere(calls, n - 1, k, v, c);
    }
  }

  lemma {:induction false} CallsWorkMoves(calls: map<nat, Call>, n: nat, k: nat, v: nat, c: Call)
    requires 1 <= v <= n && v in calls
    ensures CallsWork(calls[v := c], n, k)
         == CallsWork(calls, n, k) - StageWork(calls[v].stage, k) + StageWork(c.stage, k)
  {
    if v == n {
      CallsWorkElsewhere(calls, n - 1, k, v, c);
    } else {
      CallsWorkMoves(calls, n - 1, k, v, c);
    }
  }

  // ----- every step of its own uses some -----

  lemma QuietInside(l: Lock, a: Action)
    requires Sound(l) && Enabled(l, a) && Quiet(a)
    ensures Inside(Do(l, a)) == Inside(l) - if a.ReaderUnlock? || a.WriterUnlock? then 1 else 0
  {
    if a.ReaderUnlock? || a.WriterUnlock? {
      UnlockCounts(l, a);
    } else {
      ResumeUsesSignal(l, a);
    }
  }

  lemma AskingCosts(l: Lock, t: Thread, n: nat)
    requires Enabled(l, ReaderLock(t))
    ensures Inside(Do(l, ReaderLock(t))) == Inside(l) + 1
    ensures Potential(Do(l, ReaderLock(t)), n) == Potential(l, n) + n + 1
  {
    CountAfterChange(l, Do(l, ReaderLock(t)), t);
    assert (Inside(l) + 1) * (n + 1) == Inside(l) * (n + 1) + (n + 1);
  }

  /** A quiet step of the lock, and what it does to the other threads inside. */
  lemma LockSpends(p: Plant, a: Action, n: nat)
    requires Healthy(p) && Enabled(p.lock, a) && Quiet(a) && Others(p.lock) + 1 <= n
    ensures Potential(Do(p.lock, a), n) < Potential(p.lock, n)
    ensures Others(Do(p.lock, a))
         == Others(p.lock) - if (a.ReaderUnlock? || a.WriterUnlock?) && a.t != LOG then 1 else 0
  {
    OthersCount(p.lock);
    QuietStepSpends(p.lock, a, n);
    QuietInside(p.lock, a);
    PlaceAfter(p.lock, a);
  }

  lemma OneLess(x: int, n: nat)
    ensures (x - 1) * (n + 12) == x * (n + 12) - (n + 12)
  {
  }

  lemma LedgerMoveFlag(p: Plant, s: Step, k: nat)
    requires Healthy(p) && Exact(p) && CanStep(p, s) && OwnStep(s)
    requires s.LedgerMove? || s.LogResumes? || s.LogReads?
    ensures var p' := Advance(p, s);
            FlagWork(p', k) <= FlagWork(p, k) && p'.calls == p.calls && p'.version == p.version
            && ThreadWork(p'.log) <= ThreadWork(p.log)
  {
    PlaceAfter(p.lock, LockAction(s));
  }

  lemma LedgerMoveSpends(p: Plant, s: Step, n: nat)
    requires Healthy(p) && Exact(p) && CanStep(p, s) && OwnStep(s) && Others(p.lock) + 1 <= n
    requires s.LedgerMove? || s.LogResumes? || s.LogReads?
    ensures Work(Advance(p, s), n) < Work(p, n) && Others(Advance(p, s).lock) <= Others(p.lock)
  {
    LockSpends(p, LockAction(s), n);
    LedgerMoveFlag(p, s, n + 1);
    OneLess(Others(p.lock), n);
  }

  lemma CommitCalls(p: Plant, s: Step, k: nat)
    requires Exact(p) && CanStep(p, s) && s.Commit?
    ensures var p' := Advance(p, s);
            && CallsWork(p'.calls, p'.version, k) == CallsWork(p.calls, p.version, k) + k + 10
            && FlagWork(p', k) == FlagWork(p, k)
  {
    CallsWorkElsewhere(p.calls, p.version, k, p.version + 1, Call(s.t, Calling));
    PlaceAfter(p.lock, LockAction(s));
  }

  lemma CommitSpends(p: Plant, s: Step, n: nat)
    requires Healthy(p) && Exact(p) && CanStep(p, s) && s.Commit? && Others(p.lock) + 1 <= n
    ensures Work(Advance(p, s), n) < Work(p, n) && Others(Advance(p, s).lock) <= Others(p.lock)
  {
    LockSpends(p, LockAction(s), n);
    OneLess(Others(p.lock), n);
    CommitCalls(p, s, n + 1);
  }

  lemma AskSpends(p: Plant, s: Step, n: nat)
    requires Healthy(p) && Exact(p) && CanStep(p, s) && s.LogAsks?
    ensures Work(Advance(p, s), n) < Work(p, n) && Others(Advance(p, s).lock) <= Others(p.lock)
  {
    AskingCosts(p.lock, LOG, n);
    PlaceAfter(p.lock, LockAction(s));
  }

  lemma FlagSpends(p: Plant, s: Step, n: nat)
    requires Healthy(p) && Exact(p) && CanStep(p, s) && OwnStep(s) && !LedgerStep(s)
    ensures Work(Advance(p, s), n) < Work(p, n) && Others(Advance(p, s).lock) <= Others(p.lock)
  {
    if s.TakeMutex? || s.RaiseFlag? || s.NotifyOne? {
      var v := s.change;
      CallsWorkMoves(p.calls, p.version, n + 1, v, Advance(p, s).calls[v]);
    }
  }

  lemma OwnStepSpends(p: Plant, s: Step, n: nat)
    requires Healthy(p) && Exact(p) && CanStep(p, s) && OwnStep(s) && Others(p.lock) + 1 <= n
    ensures Work(Advance(p, s), n) < Work(p, n) && Others(Advance(p, s).lock) <= Others(p.lock)
  {
    if !LedgerStep(s) {
      FlagSpends(p, s, n);
    } else if s.Commit? {
      CommitSpends(p, s, n);
    } else if s.LogAsks? {
      AskSpends(p, s, n);
    } else {
      LedgerMoveSpends(p, s, n);
    }
  }

  lemma WorkIsNatural(p: Plant, n: nat)
    ensures Work(p, n) >= 0
  {
    OthersCount(p.lock);
    assert Others(p.lock) * (n + 12) >= 0;
  }

  /**
   Once nobody arrives any more and nobody is woken spuriously, every history is
   of bounded length: writers inside commit and notify, and the log thread reads
   what they announce.
   */
  lemma {:induction false} OwnHistoriesTerminate(p: Plant, steps: seq<Step>, n: nat)
    requires Healthy(p) && Exact(p) && IsHistory(p, steps) && Others(p.lock) + 1 <= n
    requires forall s :: s in steps ==> OwnStep(s)
    ensures |steps| <= Work(p, n)
    decreases steps
  {
    WorkIsNatural(p, n);
    if steps != [] {
      assert steps[0] in steps && forall s :: s in steps[1..] ==> s in steps;
      OwnStepSpends(p, steps[0], n);
      StepKeepsHealthy(p, steps[0]);
      StepKeepsExact(p, steps[0]);
      OwnHistoriesTerminate(Advance(p, steps[0]), steps[1..], n);
    }
  }

  lemma {:induction false} AlwaysExact(p: Plant, steps: seq<Step>)
    requires Exact(p) && IsHistory(p, steps)
    ensures Exact(Later(p, steps))
    decreases steps
  {
    if steps != [] {
      StepKeepsExact(p, steps[0]);
      AlwaysExact(Advance(p, steps[0]), steps[1..]);
    }
  }

  /**
   And where one cannot be continued, the log thread sleeps with the flag down,
   the lock is free, every notify has returned, and the last change has been read.
   */
  lemma MaximalHistoryIsRead(p0: Plant, steps: seq<Step>)
    requires Initial(p0) && IsHistory(p0, steps)
    requires forall s :: OwnStep(s) ==> !CanStep(Later(p0, steps), s)
    ensures var p := Later(p0, steps);
            && p.log.Asleep? && !p.dataChanged && Inside(p.lock) == 0 && p.seen == p.version
            && (forall v: nat :: v in p.calls <==> 1 <= v <= p.version)
            && (forall v :: v in p.calls ==> p.calls[v].stage.Returned?)
  {
    InitialIsHealthy(p0);
    AlwaysHealthy(p0, steps);
    AlwaysExact(p0, steps);
    var p := Later(p0, steps);
    if Busy(p) {
      SomethingCanMove(p);
    }
    if p.version > 0 {
      assert p.version in p.calls;
    }
  }
}
