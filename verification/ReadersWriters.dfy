/**
 The writer-preferring readers/writers lock: two condition variables over one
 mutex. Each section run under the mutex is one step; a thread inside a wait is
 blocked until notified, then signalled until it gets the mutex back and tests
 its condition again. Any number of threads may take part.
 */
module ReadersWriters {

  type Thread = nat

  datatype Place = Reading | Writing | ReaderBlocked | ReaderSignalled | WriterBlocked | WriterSignalled

  datatype Woken = Nobody | One(thread: Thread)

  /** The lock's three counters, and where each thread inside the lock is. */
  datatype Lock = Lock(readersCount: int, writerActive: bool, writersWaiting: int, place: map<Thread, Place>) {

    predicate ReadersMayEnter() {
      !writerActive && writersWaiting == 0
    }

    predicate WriterMayEnter() {
      readersCount == 0 && !writerActive
    }

    predicate At(t: Thread, p: Place) {
      t in place && place[t] == p
    }

    function ThreadsAt(p: Place): set<Thread> {
      set t | t in place && place[t] == p
    }

    function Count(p: Place): nat {
      |ThreadsAt(p)|
    }

    function Move(t: Thread, p: Place): Lock {
      this.(place := place[t := p])
    }

    function Leave(t: Thread): Lock {
      this.(place := place - {t})
    }
  }

  /** The lock as constructed. */
  predicate Free(l: Lock) {
    l.readersCount == 0 && !l.writerActive && l.writersWaiting == 0 && l.place == map[]
  }

  datatype Action =
    | ReaderLock(t: Thread)
    | ReaderResume(t: Thread)
    | ReaderUnlock(t: Thread, woken: Woken)
    | WriterLock(t: Thread)
    | WriterResume(t: Thread)
    | WriterUnlock(t: Thread, woken: Woken)
    | SpuriousWakeup(t: Thread)

  /** notify_one on the writers' condition: some blocked writer, if there is one. */
  ghost predicate MayWake(l: Lock, woken: Woken) {
    match woken
    case Nobody => forall w :: !l.At(w, WriterBlocked)
    case One(w) => l.At(w, WriterBlocked)
  }

  ghost predicate Enabled(l: Lock, a: Action) {
    match a
    case ReaderLock(t) => t !in l.place
    case ReaderResume(t) => l.At(t, ReaderSignalled)
    case ReaderUnlock(t, woken) =>
      l.At(t, Reading) && if l.readersCount == 1 then MayWake(l, woken) else woken == Nobody
    case WriterLock(t) => t !in l.place
    case WriterResume(t) => l.At(t, WriterSignalled)
    case WriterUnlock(t, woken) =>
      l.At(t, Writing) && if l.writersWaiting > 0 then MayWake(l, woken) else woken == Nobody
    case SpuriousWakeup(t) => l.At(t, ReaderBlocked) || l.At(t, WriterBlocked)
  }

  function NotifyOneWriter(l: Lock, woken: Woken): Lock {
    match woken
    case Nobody => l
    case One(w) => l.Move(w, WriterSignalled)
  }

  function NotifyAllReaders(l: Lock): Lock {
    l.(place := map t | t in l.place :: if l.place[t] == ReaderBlocked then ReaderSignalled else l.place[t])
  }

  /** The effect of one section under the mutex. */
  function Do(l: Lock, a: Action): Lock {
    match a
    case ReaderLock(t) =>
      if l.ReadersMayEnter() then l.(readersCount := l.readersCount + 1).Move(t, Reading)
      else l.Move(t, ReaderBlocked)
    case ReaderResume(t) =>
      if l.ReadersMayEnter() then l.(readersCount := l.readersCount + 1).Move(t, Reading)
      else l.Move(t, ReaderBlocked)
    case ReaderUnlock(t, woken) =>
      NotifyOneWriter(l.(readersCount := l.readersCount - 1).Leave(t), woken)
    case WriterLock(t) =>
      if l.WriterMayEnter() then l.(writerActive := true).Move(t, Writing)
      else l.(writersWaiting := l.writersWaiting + 1).Move(t, WriterBlocked)
    case WriterResume(t) =>
      if l.WriterMayEnter()
      then l.(writersWaiting := l.writersWaiting - 1, writerActive := true).Move(t, Writing)
      else l.Move(t, WriterBlocked)
    case WriterUnlock(t, woken) =>
      var released := l.(writerActive := false).Leave(t);
      if l.writersWaiting > 0 then NotifyOneWriter(released, woken) else NotifyAllReaders(released)
    case SpuriousWakeup(t) =>
      l.Move(t, if l.At(t, ReaderBlocked) then ReaderSignalled else WriterSignalled)
  }

  // ----- counting threads by place -----

  lemma SizeWithout(s: set<Thread>, t: Thread)
    ensures |s| == |s - {t}| + if t in s then 1 else 0
  {
    if t in s {
      assert s == s - {t} + {t};
    } else {
      assert s == s - {t};
    }
  }

  lemma CountAtAfterChange(l: Lock, l': Lock, t: Thread, p: Place)
    requires forall s :: s != t ==> (l.At(s, p) <==> l'.At(s, p))
    ensures l'.Count(p) == l.Count(p) - (if l.At(t, p) then 1 else 0) + (if l'.At(t, p) then 1 else 0)
  {
    SizeWithout(l.ThreadsAt(p), t);
    SizeWithout(l'.ThreadsAt(p), t);
    forall s | s != t ensures s in l.ThreadsAt(p) <==> s in l'.ThreadsAt(p) {
      assert l.At(s, p) <==> l'.At(s, p);
    }
    assert l'.ThreadsAt(p) - {t} == l.ThreadsAt(p) - {t};
  }

  lemma CountAfterChange(l: Lock, l': Lock, t: Thread)
    requires forall s :: s != t ==> (s in l.place <==> s in l'.place) && (s in l.place ==> l.place[s] == l'.place[s])
    ensures forall p :: l'.Count(p) == l.Count(p) - (if l.At(t, p) then 1 else 0) + (if l'.At(t, p) then 1 else 0)
  {
    forall p
      ensures l'.Count(p) == l.Count(p) - (if l.At(t, p) then 1 else 0) + (if l'.At(t, p) then 1 else 0)
    {
      CountAtAfterChange(l, l', t, p);
    }
  }

  lemma CountAfterNotifyAll(l: Lock)
    ensures var l' := NotifyAllReaders(l);
            forall p :: l'.Count(p) == match p
                                       case ReaderBlocked => 0
                                       case ReaderSignalled => l.Count(ReaderSignalled) + l.Count(ReaderBlocked)
                                       case _ => l.Count(p)
  {
    var l' := NotifyAllReaders(l);
    assert l'.ThreadsAt(ReaderBlocked) == {};
    assert l'.ThreadsAt(ReaderSignalled) == l.ThreadsAt(ReaderSignalled) + l.ThreadsAt(ReaderBlocked);
    forall p | p != ReaderBlocked && p != ReaderSignalled ensures l'.Count(p) == l.Count(p) {
      assert l'.ThreadsAt(p) == l.ThreadsAt(p);
    }
  }

  lemma CountZero(l: Lock, p: Place)
    ensures l.Count(p) == 0 <==> forall t :: !l.At(t, p)
  {
    var there := l.ThreadsAt(p);
    if l.Count(p) > 0 {
      var t :| t in there;
      assert l.At(t, p);
    } else {
      assert there == {};
      forall t ensures !l.At(t, p) {
        assert t !in there;
      }
    }
  }

  lemma CountOne(l: Lock, p: Place, s: Thread, t: Thread)
    requires l.Count(p) <= 1 && l.At(s, p) && l.At(t, p)
    ensures s == t
  {
    var there := l.ThreadsAt(p);
    assert s in there && t in there;
    assert there == there - {s} + {s};
    assert |there - {s}| == 0;
    assert t !in there - {s};
  }

  // ----- the invariant -----

  /** The counters count what they are meant to count. */
  predicate Consistent(l: Lock) {
    && l.readersCount == l.Count(Reading)
    && l.writersWaiting == l.Count(WriterBlocked) + l.Count(WriterSignalled)
    && l.Count(Writing) == if l.writerActive then 1 else 0
  }

  predicate MutualExclusion(l: Lock) {
    l.Count(Writing) <= 1 && (l.Count(Writing) == 1 ==> l.Count(Reading) == 0)
  }

  /**
   When the lock is free for writers and writers wait, one of them is already
   signalled; when it is free for readers, no reader is left unsignalled.
   */
  predicate NoLostWakeup(l: Lock) {
    && (l.Count(Writing) == 0 && l.Count(Reading) == 0 && l.Count(WriterBlocked) > 0 ==> l.Count(WriterSignalled) > 0)
    && (l.Count(Writing) == 0 && l.Count(WriterBlocked) + l.Count(WriterSignalled) == 0 ==> l.Count(ReaderBlocked) == 0)
  }

  predicate Sound(l: Lock) {
    Consistent(l) && MutualExclusion(l) && NoLostWakeup(l)
  }

  /** How an unlock's notify_one changes the counts. */
  lemma CountAfterNotifyOne(l: Lock, woken: Woken)
    requires MayWake(l, woken)
    ensures var l' := NotifyOneWriter(l, woken);
            && (forall p :: p != WriterBlocked && p != WriterSignalled ==> l'.Count(p) == l.Count(p))
            && l'.Count(WriterBlocked) + l'.Count(WriterSignalled) == l.Count(WriterBlocked) + l.Count(WriterSignalled)
            && (l.Count(WriterBlocked) > 0 ==> l'.Count(WriterSignalled) == l.Count(WriterSignalled) + 1)
            && (l.Count(WriterBlocked) == 0 ==> l'.Count(WriterSignalled) == l.Count(WriterSignalled))
  {
    CountZero(l, WriterBlocked);
    match woken
    case Nobody =>
    case One(w) => CountAfterChange(l, NotifyOneWriter(l, woken), w);
  }

  lemma LeaveKeepsChoice(l: Lock, left: Lock, t: Thread, woken: Woken)
    requires MayWake(l, woken) && left.place == l.place - {t} && !l.At(t, WriterBlocked)
    ensures MayWake(left, woken)
  {
    forall w | left.At(w, WriterBlocked) ensures l.At(w, WriterBlocked) {
    }
  }

  lemma UnlockCounts(l: Lock, a: Action)
    requires Sound(l) && Enabled(l, a) && (a.ReaderUnlock? || a.WriterUnlock?)
    ensures var l' := Do(l, a);
            var left := if a.ReaderUnlock? then Reading else Writing;
            var toWriters := if a.ReaderUnlock? then l.readersCount == 1 else l.writersWaiting > 0;
            && l.Count(left) >= 1
            && l'.Count(Reading) == l.Count(Reading) - (if a.ReaderUnlock? then 1 else 0)
            && l'.Count(Writing) == l.Count(Writing) - (if a.WriterUnlock? then 1 else 0)
            && l'.Count(WriterBlocked) + l'.Count(WriterSignalled) == l.Count(WriterBlocked) + l.Count(WriterSignalled)
            && l'.Count(ReaderBlocked) + l'.Count(ReaderSignalled) == l.Count(ReaderBlocked) + l.Count(ReaderSignalled)
            && (toWriters && l'.Count(WriterBlocked) > 0 ==> l'.Count(WriterSignalled) > 0)
            && (a.WriterUnlock? && !toWriters ==> l'.Count(ReaderBlocked) == 0)
  {
    var left := (if a.ReaderUnlock? then l.(readersCount := l.readersCount - 1) else l.(writerActive := false)).Leave(a.t);
    CountAfterChange(l, left, a.t);
    if a.WriterUnlock? && l.writersWaiting <= 0 {
      CountAfterNotifyAll(left);
    } else if a.WriterUnlock? || l.readersCount == 1 {
      LeaveKeepsChoice(l, left, a.t, a.woken);
      CountAfterNotifyOne(left, a.woken);
    }
  }

  /** Every step keeps mutual exclusion and loses no wakeup, spurious wakeups included. */
  lemma StepKeepsSound(l: Lock, a: Action)
    requires Sound(l) && Enabled(l, a)
    ensures Sound(Do(l, a))
  {
    if a.ReaderUnlock? || a.WriterUnlock? {
      UnlockCounts(l, a);
    } else {
      CountAfterChange(l, Do(l, a), a.t);
    }
  }

  /**
   Whom a step moves besides its own thread: an unlock wakes the one writer
   chosen, and readers only when it is a writer's and no writer waits.
   */
  lemma WhoIsWoken(l: Lock, a: Action, s: Thread)
    requires Sound(l) && Enabled(l, a) && s != a.t
    ensures var l' := Do(l, a);
            && (s in l'.place <==> s in l.place)
            && (s in l.place ==>
                  l'.place[s] ==
                    if (a.ReaderUnlock? || a.WriterUnlock?) && a.woken == One(s) then WriterSignalled
                    else if a.WriterUnlock? && l.Count(WriterBlocked) + l.Count(WriterSignalled) == 0
                            && l.place[s] == ReaderBlocked then ReaderSignalled
                    else l.place[s])
  {
  }

  ghost predicate IsRun(l: Lock, actions: seq<Action>)
    decreases actions
  {
    actions == [] || (Enabled(l, actions[0]) && IsRun(Do(l, actions[0]), actions[1..]))
  }

  function After(l: Lock, actions: seq<Action>): Lock
    decreases actions
  {
    if actions == [] then l else After(Do(l, actions[0]), actions[1..])
  }

  lemma {:induction false} RunsAreSound(l: Lock, actions: seq<Action>)
    requires Sound(l) && IsRun(l, actions)
    ensures Sound(After(l, actions))
    decreases actions
  {
    if actions != [] {
      StepKeepsSound(l, actions[0]);
      RunsAreSound(Do(l, actions[0]), actions[1..]);
    }
  }

  lemma EmptyCounts(l: Lock)
    requires l.place == map[]
    ensures forall p :: l.Count(p) == 0
  {
    forall p ensures l.Count(p) == 0 {
      CountZero(l, p);
    }
  }

  /** Of the locks with nobody inside exactly the free one is sound. */
  lemma UnusedIsFree(l: Lock)
    requires l.place == map[]
    ensures Sound(l) <==> Free(l)
  {
    EmptyCounts(l);
  }

  // ----- progress: without new arrivals everybody gets through -----

  predicate Quiet(a: Action) {
    !a.ReaderLock? && !a.WriterLock? && !a.SpuriousWakeup?
  }

  function Signalled(l: Lock): nat {
    l.Count(ReaderSignalled) + l.Count(WriterSignalled)
  }

  function Waiting(l: Lock): nat {
    Signalled(l) + l.Count(ReaderBlocked) + l.Count(WriterBlocked)
  }

  function Inside(l: Lock): nat {
    Waiting(l) + l.Count(Reading) + l.Count(Writing)
  }

  /** Bounds the quiet steps left, when at most n threads wait. */
  function Potential(l: Lock, n: nat): nat {
    Signalled(l) + Inside(l) * (n + 1)
  }

  /** A resumed thread stops being signalled, whether it enters or blocks again. */
  lemma ResumeUsesSignal(l: Lock, a: Action)
    requires Enabled(l, a) && (a.ReaderResume? || a.WriterResume?)
    ensures Inside(Do(l, a)) == Inside(l) && Waiting(Do(l, a)) <= Waiting(l)
    ensures Signalled(Do(l, a)) == Signalled(l) - 1
  {
    CountAfterChange(l, Do(l, a), a.t);
  }

  lemma QuietStepSpends(l: Lock, a: Action, n: nat)
    requires Sound(l) && Enabled(l, a) && Quiet(a) && Waiting(l) <= n
    ensures Potential(Do(l, a), n) < Potential(l, n)
    ensures Waiting(Do(l, a)) <= n
  {
    if a.ReaderUnlock? || a.WriterUnlock? {
      UnlockCounts(l, a);
      assert Inside(Do(l, a)) * (n + 1) == Inside(l) * (n + 1) - (n + 1);
    } else {
      ResumeUsesSignal(l, a);
    }
  }

  /** Without new arrivals and spurious wakeups every run is finite, of bounded length. */
  lemma {:induction false} QuietRunsTerminate(l: Lock, actions: seq<Action>, n: nat)
    requires Sound(l) && IsRun(l, actions) && Waiting(l) <= n
    requires forall a :: a in actions ==> Quiet(a)
    ensures |actions| <= Potential(l, n)
    decreases actions
  {
    if actions != [] {
      assert actions[0] in actions;
      QuietStepSpends(l, actions[0], n);
      StepKeepsSound(l, actions[0]);
      QuietRunsTerminate(Do(l, actions[0]), actions[1..], n);
    }
  }

  lemma SomeChoice(l: Lock)
    ensures exists woken :: MayWake(l, woken)
  {
    if w :| l.At(w, WriterBlocked) {
      assert MayWake(l, One(w));
    } else {
      assert MayWake(l, Nobody);
    }
  }

  /** As long as anybody is inside or waiting, some quiet step can be taken. */
  lemma SomebodyCanMove(l: Lock)
    requires Sound(l) && Inside(l) > 0
    ensures exists a :: Quiet(a) && Enabled(l, a)
  {
    forall p { CountZero(l, p); }
    SomeChoice(l);
    var woken :| MayWake(l, woken);
    if t :| l.At(t, Reading) {
      assert Enabled(l, ReaderUnlock(t, if l.readersCount == 1 then woken else Nobody));
    } else if t :| l.At(t, Writing) {
      assert Enabled(l, WriterUnlock(t, if l.writersWaiting > 0 then woken else Nobody));
    } else if t :| l.At(t, ReaderSignalled) {
      assert Enabled(l, ReaderResume(t));
    } else {
      assert l.Count(WriterSignalled) > 0;
      var t :| l.At(t, WriterSignalled);
      assert Enabled(l, WriterResume(t));
    }
  }

  lemma NobodyInside(l: Lock)
    requires Inside(l) == 0
    ensures l.place == map[]
  {
    forall t ensures t !in l.place {
      if t in l.place {
        CountZero(l, l.place[t]);
        assert l.At(t, l.place[t]);
      }
    }
  }

  /** So a run that cannot be continued quietly has emptied both queues. */
  lemma MaximalQuietRunEmptiesQueues(l: Lock, actions: seq<Action>)
    requires Sound(l) && IsRun(l, actions)
    requires forall a :: Quiet(a) ==> !Enabled(After(l, actions), a)
    ensures Inside(After(l, actions)) == 0 && Free(After(l, actions))
  {
    RunsAreSound(l, actions);
    if Inside(After(l, actions)) > 0 {
      SomebodyCanMove(After(l, actions));
    }
    NobodyInside(After(l, actions));
    UnusedIsFree(After(l, actions));
  }

  /** Writer preference: while a writer waits, no reader gets in. */
  lemma {:induction false} NoReaderOvertakes(l: Lock, actions: seq<Action>)
    requires Sound(l) && IsRun(l, actions)
    requires forall k :: 0 <= k <= |actions| ==> After(l, actions[..k]).writersWaiting > 0
    ensures forall t :: After(l, actions).At(t, Reading) ==> l.At(t, Reading)
    decreases actions
  {
    assert After(l, actions[..0]).writersWaiting > 0;
    if actions != [] {
      var l' := Do(l, actions[0]);
      StepKeepsSound(l, actions[0]);
      forall k | 0 <= k <= |actions[1..]| ensures After(l', actions[1..][..k]).writersWaiting > 0 {
        assert actions[..k + 1][1..] == actions[1..][..k];
        assert After(l, actions[..k + 1]) == After(l', actions[1..][..k]);
      }
      NoReaderOvertakes(l', actions[1..]);
      assert forall t :: l'.At(t, Reading) ==> l.At(t, Reading);
    }
  }

  // ----- the lock as an object -----

  /**
   The program's four lock operations, each cut where a thread gives up the
   mutex: an operation that has to wait leaves its thread blocked, and the
   thread's resumption is a step of its own. The wait sets of the two condition
   variables are the blocked and signalled places of the map.
   */
  class Monitor {
    var readersCount: int
    var writerActive: bool
    var writersWaiting: int
    var place: map<Thread, Place>

    function State(): Lock
      reads this
    {
      Lock(readersCount, writerActive, writersWaiting, place)
    }

    predicate Valid()
      reads this
    {
      Sound(State())
    }

    constructor ()
      ensures Free(State()) && Valid()
    {
      readersCount, writerActive, writersWaiting, place := 0, false, 0, map[];
      new;
      UnusedIsFree(State());
    }

    /** reader_lock, up to entering or waiting; also a resumed reader's next test. */
    method TryRead(t: Thread) returns (entered: bool)
      requires Valid() && (t !in place || State().At(t, ReaderSignalled))
      modifies this
      ensures Valid() && entered == old(State()).ReadersMayEnter() == State().At(t, Reading)
      ensures State() == Do(old(State()), if old(t in place) then ReaderResume(t) else ReaderLock(t))
    {
      StepKeepsSound(State(), if t in place then ReaderResume(t) else ReaderLock(t));
      if !writerActive && writersWaiting == 0 {
        readersCount := readersCount + 1;
        place := place[t := Reading];
        return true;
      }
      place := place[t := ReaderBlocked];
      return false;
    }

    /** notify_one on the writers' condition variable. */
    method NotifyWriter() returns (woken: Woken)
      modifies this`place
      ensures MayWake(old(State()), woken) && State() == NotifyOneWriter(old(State()), woken)
    {
      if w :| w in place.Keys && State().At(w, WriterBlocked) {
        place := place[w := WriterSignalled];
        return One(w);
      }
      return Nobody;
    }

    method ReaderUnlockSection(t: Thread) returns (woken: Woken)
      requires Valid() && State().At(t, Reading)
      modifies this
      ensures Valid() && Enabled(old(State()), ReaderUnlock(t, woken))
      ensures State() == Do(old(State()), ReaderUnlock(t, woken))
    {
      ghost var before := State();
      woken := Nobody;
      place := place - {t};
      readersCount := readersCount - 1;
      if readersCount == 0 {
        ghost var left := State();
        woken := NotifyWriter();
        ChoiceBeforeLeaving(before, left, t, woken);
      }
      StepKeepsSound(before, ReaderUnlock(t, woken));
    }

    /** writer_lock, up to its first test. */
    method TryWrite(t: Thread) returns (entered: bool)
      requires Valid() && t !in place
      modifies this
      ensures Valid() && entered == old(State()).WriterMayEnter() == State().At(t, Writing)
      ensures State() == Do(old(State()), WriterLock(t))
    {
      StepKeepsSound(State(), WriterLock(t));
      writersWaiting := writersWaiting + 1;
      if readersCount == 0 && !writerActive {
        writersWaiting := writersWaiting - 1;
        writerActive := true;
        place := place[t := Writing];
        return true;
      }
      place := place[t := WriterBlocked];
      return false;
    }

    /** A notified writer tests its condition again. */
    method ResumeWrite(t: Thread) returns (entered: bool)
      requires Valid() && State().At(t, WriterSignalled)
      modifies this
      ensures Valid() && entered == old(State()).WriterMayEnter() == State().At(t, Writing)
      ensures State() == Do(old(State()), WriterResume(t))
    {
      StepKeepsSound(State(), WriterResume(t));
      if readersCount == 0 && !writerActive {
        writersWaiting := writersWaiting - 1;
        writerActive := true;
        place := place[t := Writing];
        return true;
      }
      place := place[t := WriterBlocked];
      return false;
    }

    method WriterUnlockSection(t: Thread) returns (woken: Woken)
      requires Valid() && State().At(t, Writing)
      modifies this
      ensures Valid() && Enabled(old(State()), WriterUnlock(t, woken))
      ensures State() == Do(old(State()), WriterUnlock(t, woken))
    {
      ghost var before := State();
      woken := Nobody;
      place := place - {t};
      writerActive := false;
      if writersWaiting > 0 {
        ghost var left := State();
        woken := NotifyWriter();
        ChoiceBeforeLeaving(before, left, t, woken);
      } else {
        place := map s | s in place :: if place[s] == ReaderBlocked then ReaderSignalled else place[s];
      }
      StepKeepsSound(before, WriterUnlock(t, woken));
    }
  }

  lemma ChoiceBeforeLeaving(l: Lock, left: Lock, t: Thread, woken: Woken)
    requires MayWake(left, woken) && left.place == l.place - {t} && !l.At(t, WriterBlocked)
    ensures MayWake(l, woken)
  {
    forall w | l.At(w, WriterBlocked) ensures left.At(w, WriterBlocked) {
    }
  }
}
