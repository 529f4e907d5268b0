/**
 The server's log thread and its dirty flag. The log thread waits for the flag
 under its own mutex and, still holding it, takes the reader side of the ledger's
 lock; writers raise the flag by notify, after they have released the ledger.
 */
module LogThread {
  import opened ReadersWriters

  /** The log thread's name inside the readers/writers lock. */
  const LOG: Thread := 0

  datatype LogStage =
    | Testing      // about to take the mutex and look at the flag
    | Asleep       // in wait, mutex released
    | Notified     // woken, about to take the mutex again
    | WantsLedger  // mutex held, flag seen, reader_lock called
    | HasRead      // mutex held, ledger read and reader side released

  datatype CallStage = Calling | InSection | FlagRaised | Returned

  /** A notify call: its thread and how far it got. */
  datatype Call = Call(thread: Thread, stage: CallStage)

  datatype Mutex = Open | HeldByLog | HeldBy(change: nat)

  /** Calls are named by the change of the ledger they announce. */
  datatype Plant = Plant(
    lock: Lock,
    mutex: Mutex,
    dataChanged: bool,
    log: LogStage,
    version: nat,       // committed changes of the ledger so far
    seen: nat,          // the version the log thread last read
    calls: map<nat, Call>)

  datatype Step =
    | LedgerMove(action: Action)             // a lock step of another thread, changing nothing
    | Commit(t: Thread, woken: Woken)        // a writer that changed the ledger releases it
    | TakeMutex(change: nat)
    | RaiseFlag(change: nat)                 // and leave the section
    | NotifyOne(change: nat)
    | LogTests
    | LogWakesSpuriously
    | LogAsks                                // reader_lock
    | LogResumes                             // a notified reader tests again
    | LogReads(woken: Woken)                 // read, then reader_unlock
    | LogClears                              // and leave the section

  predicate CallAt(p: Plant, v: nat, s: CallStage) {
    v in p.calls && p.calls[v].stage == s
  }

  /** A thread inside notify does nothing else. */
  ghost predicate InNotify(p: Plant, t: Thread) {
    exists v :: v in p.calls && p.calls[v].thread == t && !p.calls[v].stage.Returned?
  }

  ghost predicate CanStep(p: Plant, s: Step) {
    match s
    case LedgerMove(a) =>
      Enabled(p.lock, a) && a.t != LOG && (a.ReaderLock? || a.WriterLock? ==> !InNotify(p, a.t))
    case Commit(t, woken) => Enabled(p.lock, WriterUnlock(t, woken)) && t != LOG
    case TakeMutex(v) => CallAt(p, v, Calling) && p.mutex.Open?
    case RaiseFlag(v) => CallAt(p, v, InSection)
    case NotifyOne(v) => CallAt(p, v, FlagRaised)
    case LogTests => (p.log.Testing? || p.log.Notified?) && p.mutex.Open?
    case LogWakesSpuriously => p.log.Asleep?
    case LogAsks => p.log.WantsLedger? && Enabled(p.lock, ReaderLock(LOG))
    case LogResumes => p.log.WantsLedger? && Enabled(p.lock, ReaderResume(LOG))
    case LogReads(woken) => p.log.WantsLedger? && Enabled(p.lock, ReaderUnlock(LOG, woken))
    case LogClears => p.log.HasRead?
  }

  function CallTo(p: Plant, v: nat, s: CallStage): Plant
    requires v in p.calls
  {
    p.(calls := p.calls[v := p.calls[v].(stage := s)])
  }

  ghost function Advance(p: Plant, s: Step): Plant
    requires CanStep(p, s)
  {
    match s
    case LedgerMove(a) => p.(lock := Do(p.lock, a))
    case Commit(t, woken) =>
      p.(lock := Do(p.lock, WriterUnlock(t, woken)),
         version := p.version + 1,
         calls := p.calls[p.version + 1 := Call(t, Calling)])
    case TakeMutex(v) => CallTo(p, v, InSection).(mutex := HeldBy(v))
    case RaiseFlag(v) => CallTo(p, v, FlagRaised).(dataChanged := true, mutex := Open)
    case NotifyOne(v) => CallTo(p, v, Returned).(log := if p.log.Asleep? then Notified else p.log)
    case LogTests => if p.dataChanged then p.(log := WantsLedger, mutex := HeldByLog) else p.(log := Asleep)
    case LogWakesSpuriously => p.(log := Notified)
    case LogAsks => p.(lock := Do(p.lock, ReaderLock(LOG)))
    case LogResumes => p.(lock := Do(p.lock, ReaderResume(LOG)))
    case LogReads(woken) =>
      p.(lock := Do(p.lock, ReaderUnlock(LOG, woken)), seen := p.version, log := HasRead)
    case LogClears => p.(dataChanged := false, log := Testing, mutex := Open)
  }

  /** Every announced change has been read, or the flag is up and will not be cleared unread. */
  ghost predicate Fresh(p: Plant) {
    && p.seen <= p.version
    && forall v :: v in p.calls ==>
         && v <= p.version
         && (p.calls[v].stage.FlagRaised? || p.calls[v].stage.Returned? ==>
               v <= p.seen || (p.dataChanged && !p.log.HasRead?))
  }

  /** Who holds the mutex; and nobody waits for it while inside the ledger's lock. */
  ghost predicate Ordered(p: Plant) {
    && (p.mutex.HeldByLog? <==> p.log.WantsLedger? || p.log.HasRead?)
    && (forall v: nat :: CallAt(p, v, InSection) <==> p.mutex == HeldBy(v))
    && (forall v :: v in p.calls && !p.calls[v].stage.Returned? ==>
          p.calls[v].thread !in p.lock.place && p.calls[v].thread != LOG)
    && (LOG in p.lock.place ==>
          p.log.WantsLedger? && p.lock.place[LOG] in {Reading, ReaderBlocked, ReaderSignalled})
  }

  /** A sleeping log thread with the flag raised has a notification coming. */
  ghost predicate WakeComing(p: Plant) {
    p.log.Asleep? && p.dataChanged ==> exists v :: CallAt(p, v, FlagRaised)
  }

  ghost predicate Healthy(p: Plant) {
    Sound(p.lock) && Fresh(p) && Ordered(p) && WakeComing(p)
  }

  /** How a lock step moves threads in and out of the lock. */
  lemma PlaceAfter(l: Lock, a: Action)
    requires Enabled(l, a)
    ensures var l' := Do(l, a);
            && (forall t :: t in l'.place <==> (t in l.place || t == a.t) && !(t == a.t && (a.ReaderUnlock? || a.WriterUnlock?)))
            && (forall t :: t != a.t && t in l.place && l.place[t] in {Reading, ReaderBlocked, ReaderSignalled} ==>
                  l'.place[t] in {Reading, ReaderBlocked, ReaderSignalled})
            && (a.t in l'.place && (a.ReaderLock? || a.ReaderResume?) ==>
                  l'.place[a.t] in {Reading, ReaderBlocked, ReaderSignalled})
  {
  }

  predicate LedgerStep(s: Step) {
    s.LedgerMove? || s.Commit? || s.LogAsks? || s.LogResumes? || s.LogReads?
  }

  /** What a step does to the ledger's lock. */
  function LockAction(s: Step): Action
    requires LedgerStep(s)
  {
    match s
    case LedgerMove(a) => a
    case Commit(t, woken) => WriterUnlock(t, woken)
    case LogAsks => ReaderLock(LOG)
    case LogResumes => ReaderResume(LOG)
    case LogReads(woken) => ReaderUnlock(LOG, woken)
  }

  lemma LedgerStepOrdered(p: Plant, s: Step)
    requires Sound(p.lock) && Ordered(p) && Fresh(p) && CanStep(p, s) && LedgerStep(s)
    ensures Ordered(Advance(p, s)) && Fresh(Advance(p, s))
  {
    PlaceAfter(p.lock, LockAction(s));
  }

  lemma LedgerStepHealthy(p: Plant, s: Step)
    requires Healthy(p) && CanStep(p, s) && LedgerStep(s)
    ensures Healthy(Advance(p, s))
  {
    StepKeepsSound(p.lock, LockAction(s));
    LedgerStepOrdered(p, s);
    var p' := Advance(p, s);
    if p'.log.Asleep? && p'.dataChanged {
      var v :| CallAt(p, v, FlagRaised);
      assert CallAt(p', v, FlagRaised);
    }
  }

  lemma FlagStepHealthy(p: Plant, s: Step)
    requires Healthy(p) && CanStep(p, s)
    requires !LedgerStep(s)
    ensures Healthy(Advance(p, s))
  {
    var p' := Advance(p, s);
    if s.RaiseFlag? {
      assert CallAt(p', s.change, FlagRaised);
    } else if s.TakeMutex? && p.log.Asleep? && p.dataChanged {
      var v :| CallAt(p, v, FlagRaised);
      assert CallAt(p', v, FlagRaised);
    }
  }

  ghost predicate IsHistory(p: Plant, steps: seq<Step>)
    decreases steps
  {
    steps == [] || (CanStep(p, steps[0]) && IsHistory(Advance(p, steps[0]), steps[1..]))
  }

  ghost function Later(p: Plant, steps: seq<Step>): Plant
    requires IsHistory(p, steps)
    decreases steps
  {
    if steps == [] then p else Later(Advance(p, steps[0]), steps[1..])
  }

  lemma {:induction false} AlwaysHealthy(p: Plant, steps: seq<Step>)
    requires Healthy(p) && IsHistory(p, steps)
    ensures Healthy(Later(p, steps))
    decreases steps
  {
    if steps != [] {
      var s := steps[0];
      if LedgerStep(s) {
        LedgerStepHealthy(p, s);
      } else {
        FlagStepHealthy(p, s);
      }
      AlwaysHealthy(Advance(p, s), steps[1..]);
    }
  }

  /** The log thread started, the ledger's lock free. */
  predicate Initial(p: Plant) {
    && Free(p.lock) && p.mutex.Open? && !p.dataChanged && p.log.Testing?
    && p.version == 0 == p.seen && p.calls == map[]
  }

  lemma InitialIsHealthy(p: Plant)
    requires Initial(p)
    ensures Healthy(p)
  {
    UnusedIsFree(p.lock);
  }

  /**
   Freshness: once notify for a committed change has returned, the flag is up
   or the log thread has read a ledger that includes the change.
   */
  lemma NotifiedChangesAreSeen(p0: Plant, steps: seq<Step>, v: nat)
    requires Initial(p0) && IsHistory(p0, steps) && CallAt(Later(p0, steps), v, Returned)
    ensures var p := Later(p0, steps); p.dataChanged || v <= p.seen
  {
    InitialIsHealthy(p0);
    AlwaysHealthy(p0, steps);
  }

  // ----- no wait cycle between the mutex and the ledger's lock -----

  ghost predicate Busy(p: Plant) {
    Inside(p.lock) > 0 || !p.log.Asleep? || p.dataChanged || exists v :: v in p.calls && !p.calls[v].stage.Returned?
  }

  predicate OwnStep(s: Step) {
    !s.LogWakesSpuriously? && (s.LedgerMove? ==> Quiet(s.action))
  }

  lemma LockCanMove(p: Plant)
    requires Healthy(p) && Inside(p.lock) > 0
    ensures exists s :: OwnStep(s) && CanStep(p, s)
  {
    SomebodyCanMove(p.lock);
    var a :| Quiet(a) && Enabled(p.lock, a);
    if a.t != LOG {
      assert CanStep(p, LedgerMove(a));
    } else if a.ReaderResume? {
      assert CanStep(p, LogResumes);
    } else {
      assert CanStep(p, LogReads(a.woken));
    }
  }

  lemma FlagCanMove(p: Plant)
    requires Healthy(p) && Busy(p) && LOG !in p.lock.place && Inside(p.lock) == 0
    ensures exists s :: OwnStep(s) && CanStep(p, s)
  {
    if p.mutex.HeldBy? {
      assert CanStep(p, RaiseFlag(p.mutex.change));
    } else if p.log.WantsLedger? {
      assert CanStep(p, LogAsks);
    } else if p.log.HasRead? {
      assert CanStep(p, LogClears);
    } else if !p.log.Asleep? {
      assert CanStep(p, LogTests);
    } else {
      if p.dataChanged {
        var v :| CallAt(p, v, FlagRaised);
        assert v in p.calls;
      }
      var v :| v in p.calls && !p.calls[v].stage.Returned?;
      assert !CallAt(p, v, InSection);
      assert CanStep(p, if p.calls[v].stage.Calling? then TakeMutex(v) else NotifyOne(v));
    }
  }

  lemma SomethingCanMove(p: Plant)
    requires Healthy(p) && Busy(p)
    ensures exists s :: OwnStep(s) && CanStep(p, s)
  {
    if Inside(p.lock) > 0 {
      LockCanMove(p);
    } else {
      if LOG in p.lock.place {
        CountZero(p.lock, p.lock.place[LOG]);
        assert p.lock.At(LOG, p.lock.place[LOG]);
      }
      FlagCanMove(p);
    }
  }

  /**
   As long as anybody has anything to do, somebody can do it: the mutex and the
   ledger's lock never form a wait cycle, and no notification is lost.
   */
  lemma NeverStuck(p0: Plant, steps: seq<Step>)
    requires Initial(p0) && IsHistory(p0, steps) && Busy(Later(p0, steps))
    ensures exists s :: OwnStep(s) && CanStep(Later(p0, steps), s)
  {
    InitialIsHealthy(p0);
    AlwaysHealthy(p0, steps);
    SomethingCanMove(Later(p0, steps));
  }
}
