/**
 Transactions under the lock, write by write. Threads take the writer side of
 the readers/writers lock and then change the shared books one field at a time,
 arbitrarily interleaved with every other thread's steps.
 */
module Isolation {
  import opened Binary32
  import opened LedgerModel
  import opened LedgerTheorems
  import opened ReadersWriters
  import opened Replication

  /** What a thread wants the writer lock for. */
  datatype Task = Apply(op: Op) | CopyBooks

  /** The next write of a thread holding the writer lock. */
  datatype Pc =
    | Begin
    | DebitSource | CreditDest | StampRequest | BumpCount | AddVolume | PushHistory | SendUpdate
    | PushClient | RaiseTotal | SendClient
    | CopyClients | CopyHistory | Subscribe
    | Done

  function Left(pc: Pc): nat {
    match pc
    case Begin => 8
    case DebitSource => 7
    case CreditDest => 6
    case StampRequest => 5
    case BumpCount => 4
    case AddVolume => 3
    case PushHistory => 2
    case SendUpdate => 1
    case PushClient => 3
    case RaiseTotal => 2
    case SendClient => 1
    case CopyClients => 3
    case CopyHistory => 2
    case Subscribe => 1
    case Done => 0
  }

  /** A writer's task, its program counter and the two positions it looked up. */
  datatype Work = Work(task: Task, pc: Pc, s: nat, d: nat)

  /** The copy taken for a new backup, and where in the packet stream it subscribed. */
  datatype Copy = Copy(clients: seq<Account>, history: seq<Transaction>, from: nat)

  /** Everything the writer lock guards. */
  datatype Shared = Shared(books: Ledger, sent: seq<Packet>, copy: Copy)

  /** What the writer's program counter lets it rely on. */
  predicate Fits(w: Work, x: Shared) {
    match w.pc
    case Begin => true
    case Done => true
    case PushClient => w.task.Apply? && w.task.op.Join? && !Has(x.books.clients, w.task.op.address)
    case RaiseTotal => w.task.Apply? && w.task.op.Join?
    case SendClient => w.task.Apply? && w.task.op.Join?
    case CopyClients => w.task.CopyBooks?
    case CopyHistory => w.task.CopyBooks?
    case Subscribe => w.task.CopyBooks?
    case _ =>
      && w.task.Apply? && w.task.op.Transfer?
      && w.s == Find(x.books.clients, w.task.op.request.source) < |x.books.clients|
      && w.d == Find(x.books.clients, w.task.op.request.dest) < |x.books.clients|
      && (w.pc == SendUpdate ==> x.books.history != [])
  }

  function TransferWrite(m: Arithmetic, r: Request, w: Work, x: Shared): (Work, Shared)
    requires w.task == Apply(Transfer(r)) && Fits(w, x) && w.pc != Done
  {
    var l := x.books;
    if w.pc == Begin then
      var s, d := Find(l.clients, r.source), Find(l.clients, r.dest);
      var status := Validate(m, l.clients, s, d, r.value, r.seqn);
      (w.(pc := if status == Success then DebitSource else Done, s := s, d := d), x)
    else if w.pc == DebitSource then
      var balance := m.Debit(l.clients[w.s].balance, r.value);
      (w.(pc := CreditDest), x.(books := l.(clients := SetBalance(l.clients, w.s, balance))))
    else if w.pc == CreditDest then
      var balance := m.Credit(l.clients[w.d].balance, r.value);
      (w.(pc := StampRequest), x.(books := l.(clients := SetBalance(l.clients, w.d, balance))))
    else if w.pc == StampRequest then
      (w.(pc := BumpCount), x.(books := l.(clients := SetLastReq(l.clients, w.s, r.seqn))))
    else if w.pc == BumpCount then
      (w.(pc := AddVolume), x.(books := l.(numTransactions := l.numTransactions + 1)))
    else if w.pc == AddVolume then
      (w.(pc := PushHistory), x.(books := l.(totalTransferred := l.totalTransferred + r.value)))
    else if w.pc == PushHistory then
      var tx := Transaction(l.numTransactions, r.source, r.dest, r.value, r.seqn);
      (w.(pc := SendUpdate), x.(books := l.(history := l.history + [tx])))
    else
      (w.(pc := Done), x.(sent := x.sent + [TransferPacket(l, r.source, r.dest)]))
  }

  function JoinWrite(m: Arithmetic, a: Address, w: Work, x: Shared): (Work, Shared)
    requires w.task == Apply(Join(a)) && Fits(w, x) && w.pc != Done
  {
    var l := x.books;
    if w.pc == Begin then
      (w.(pc := if Has(l.clients, a) then Done else PushClient), x)
    else if w.pc == PushClient then
      (w.(pc := RaiseTotal), x.(books := l.(clients := l.clients + [NewAccount(a)])))
    else if w.pc == RaiseTotal then
      (w.(pc := SendClient), x.(books := l.(totalBalance := m.AddTotal(l.totalBalance, INITIAL_BALANCE))))
    else
      (w.(pc := Done), x.(sent := x.sent + [ClientUpdate(a, INITIAL_BALANCE, 0)]))
  }

  function CopyWrite(w: Work, x: Shared): (Work, Shared)
    requires w.task == CopyBooks && Fits(w, x) && w.pc != Done
  {
    if w.pc == Begin then (w.(pc := CopyClients), x)
    else if w.pc == CopyClients then (w.(pc := CopyHistory), x.(copy := x.copy.(clients := x.books.clients)))
    else if w.pc == CopyHistory then (w.(pc := Subscribe), x.(copy := x.copy.(history := x.books.history)))
    else (w.(pc := Done), x.(copy := x.copy.(from := |x.sent|)))
  }

  /** One write by the thread holding the writer lock. */
  function Micro(m: Arithmetic, w: Work, x: Shared): (r: (Work, Shared))
    requires Fits(w, x) && w.pc != Done
    ensures Left(r.0.pc) < Left(w.pc) && r.0.task == w.task
  {
    match w.task
    case CopyBooks => CopyWrite(w, x)
    case Apply(Join(a)) => JoinWrite(m, a, w, x)
    case Apply(Transfer(r)) => TransferWrite(m, r, w, x)
  }

  lemma MicroFits(m: Arithmetic, w: Work, x: Shared)
    requires Fits(w, x) && w.pc != Done
    ensures Fits(Micro(m, w, x).0, Micro(m, w, x).1)
  {
    var l := x.books;
    if w.pc == DebitSource {
      FindAfterUpdate(l.clients, w.s, SetBalance(l.clients, w.s, m.Debit(l.clients[w.s].balance, w.task.op.request.value))[w.s]);
    } else if w.pc == CreditDest {
      FindAfterUpdate(l.clients, w.d, SetBalance(l.clients, w.d, m.Credit(l.clients[w.d].balance, w.task.op.request.value))[w.d]);
    } else if w.pc == StampRequest {
      FindAfterUpdate(l.clients, w.s, SetLastReq(l.clients, w.s, w.task.op.request.seqn)[w.s]);
    }
  }

  /** The books and packets once the writer has made its remaining writes. */
  ghost function Complete(m: Arithmetic, w: Work, x: Shared): (r: (Ledger, seq<Packet>))
    requires Fits(w, x)
    decreases Left(w.pc)
  {
    if w.pc == Done then (x.books, x.sent)
    else
      MicroFits(m, w, x);
      Complete(m, Micro(m, w, x).0, Micro(m, w, x).1)
  }

  ghost function StepTask(m: Arithmetic, l: Ledger, task: Task): Ledger {
    if task.Apply? then Step(m, l, task.op) else l
  }

  ghost function EmitTask(m: Arithmetic, l: Ledger, task: Task): seq<Packet> {
    if task.Apply? then Emit(m, l, task.op) else []
  }

  // ----- run to completion, the writes make up the operation -----

  lemma CopyCompletes(m: Arithmetic, w: Work, x: Shared)
    requires w.task == CopyBooks && Fits(w, x)
    ensures Complete(m, w, x) == (x.books, x.sent)
    decreases Left(w.pc)
  {
    if w.pc != Done {
      MicroFits(m, w, x);
      CopyCompletes(m, Micro(m, w, x).0, Micro(m, w, x).1);
    }
  }

  lemma OneMore(m: Arithmetic, w: Work, x: Shared)
    requires Fits(w, x) && w.pc != Done
    ensures var (w', x') := Micro(m, w, x);
            Fits(w', x') && Complete(m, w, x) == Complete(m, w', x')
  {
    MicroFits(m, w, x);
  }

  lemma JoinCompletes(m: Arithmetic, a: Address, x: Shared)
    ensures Complete(m, Work(Apply(Join(a)), Begin, 0, 0), x)
         == (JoinEffect(m, x.books, a), x.sent + Emit(m, x.books, Join(a)))
  {
    var w0 := Work(Apply(Join(a)), Begin, 0, 0);
    OneMore(m, w0, x);
    if Has(x.books.clients, a) {
      assert x.sent + [] == x.sent;
    } else {
      var (w1, x1) := Micro(m, w0, x);
      OneMore(m, w1, x1);
      var (w2, x2) := Micro(m, w1, x1);
      OneMore(m, w2, x2);
      var (w3, x3) := Micro(m, w2, x2);
      OneMore(m, w3, x3);
    }
  }

  lemma OneMoreIs(m: Arithmetic, w: Work, x: Shared, w': Work, x': Shared)
    requires Fits(w, x) && w.pc != Done && Micro(m, w, x) == (w', x')
    ensures Fits(w', x') && Complete(m, w, x) == Complete(m, w', x')
  {
    MicroFits(m, w, x);
  }

  /** The three account writes, up to the counters. */
  lemma TransferHead(m: Arithmetic, r: Request, x: Shared)
    requires StatusOf(m, x.books, r) == Success
    ensures var cs, s, d := x.books.clients, Find(x.books.clients, r.source), Find(x.books.clients, r.dest);
            var w := Work(Apply(Transfer(r)), BumpCount, s, d);
            var x' := x.(books := x.books.(clients := Execute(m, cs, s, d, r.value, r.seqn)));
            Fits(w, x') && Complete(m, Work(Apply(Transfer(r)), Begin, 0, 0), x) == Complete(m, w, x')
  {
    var cs, s, d := x.books.clients, Find(x.books.clients, r.source), Find(x.books.clients, r.dest);
    var task := Apply(Transfer(r));
    var debited := SetBalance(cs, s, m.Debit(cs[s].balance, r.value));
    var credited := SetBalance(debited, d, m.Credit(debited[d].balance, r.value));
    var x2, x3 := x.(books := x.books.(clients := debited)), x.(books := x.books.(clients := credited));
    OneMoreIs(m, Work(task, Begin, 0, 0), x, Work(task, DebitSource, s, d), x);
    OneMoreIs(m, Work(task, DebitSource, s, d), x, Work(task, CreditDest, s, d), x2);
    OneMoreIs(m, Work(task, CreditDest, s, d), x2, Work(task, StampRequest, s, d), x3);
    OneMoreIs(m, Work(task, StampRequest, s, d), x3, Work(task, BumpCount, s, d),
              x.(books := x.books.(clients := SetLastReq(credited, s, r.seqn))));
  }

  /** The counters, the log and the packet. */
  lemma TransferTail(m: Arithmetic, r: Request, s: nat, d: nat, x: Shared)
    requires Fits(Work(Apply(Transfer(r)), BumpCount, s, d), x)
    ensures var l := Record(x.books, r);
            Complete(m, Work(Apply(Transfer(r)), BumpCount, s, d), x)
            == (l, x.sent + [TransferPacket(l, r.source, r.dest)])
  {
    var l, task := Record(x.books, r), Apply(Transfer(r));
    var x1 := x.(books := x.books.(numTransactions := l.numTransactions));
    var x2 := x1.(books := x1.books.(totalTransferred := l.totalTransferred));
    var x3 := x.(books := l);
    var x4 := x3.(sent := x.sent + [TransferPacket(l, r.source, r.dest)]);
    OneMoreIs(m, Work(task, BumpCount, s, d), x, Work(task, AddVolume, s, d), x1);
    OneMoreIs(m, Work(task, AddVolume, s, d), x1, Work(task, PushHistory, s, d), x2);
    OneMoreIs(m, Work(task, PushHistory, s, d), x2, Work(task, SendUpdate, s, d), x3);
    OneMoreIs(m, Work(task, SendUpdate, s, d), x3, Work(task, Done, s, d), x4);
  }

  lemma TransferCompletes(m: Arithmetic, r: Request, x: Shared)
    ensures Complete(m, Work(Apply(Transfer(r)), Begin, 0, 0), x)
         == (TransferEffect(m, x.books, r), x.sent + Emit(m, x.books, Transfer(r)))
  {
    if StatusOf(m, x.books, r) == Success {
      TransferHead(m, r, x);
      var s, d := Find(x.books.clients, r.source), Find(x.books.clients, r.dest);
      TransferTail(m, r, s, d, x.(books := x.books.(clients := Execute(m, x.books.clients, s, d, r.value, r.seqn))));
    } else {
      OneMore(m, Work(Apply(Transfer(r)), Begin, 0, 0), x);
      assert x.sent + [] == x.sent;
    }
  }

  /** The writes of any task, run to completion from any books. */
  lemma TaskCompletes(m: Arithmetic, task: Task, x: Shared)
    ensures Complete(m, Work(task, Begin, 0, 0), x)
         == (StepTask(m, x.books, task), x.sent + EmitTask(m, x.books, task))
  {
    match task
    case CopyBooks =>
      CopyCompletes(m, Work(task, Begin, 0, 0), x);
      assert x.sent + [] == x.sent;
    case Apply(Join(a)) => JoinCompletes(m, a, x);
    case Apply(Transfer(r)) => TransferCompletes(m, r, x);
  }

  // ----- all threads together -----

  datatype Active = Idle | Busy(thread: Thread, work: Work)

  /**
   The lock, the pending writers' tasks, the writer at work, and what it guards.
   order lists the tasks in the order their threads acquired the lock, and mark
   the length of order when the last copy was taken.
   */
  datatype System = System(
    lock: Lock,
    tasks: map<Thread, Task>,
    active: Active,
    shared: Shared,
    order: seq<Op>,
    mark: nat)

  datatype Move =
    | Arrive(t: Thread, task: Task)  // a writer calls writer_lock
    | Proceed(action: Action)        // any other step of the lock
    | WriteOne                       // the writer at work makes its next write

  ghost predicate CanMove(y: System, v: Move) {
    match v
    case Arrive(t, _) => Enabled(y.lock, WriterLock(t))
    case Proceed(a) =>
      && !a.WriterLock? && Enabled(y.lock, a)
      && (a.WriterResume? ==> a.t in y.tasks)
      && (a.WriterUnlock? ==> y.active.Busy? && y.active.work.pc == Done)
    case WriteOne => y.active.Busy? && Fits(y.active.work, y.shared) && y.active.work.pc != Done
  }

  /** A thread that has just acquired the writer lock starts on its task. */
  function Acquire(y: System, t: Thread, task: Task): System {
    y.(active := Busy(t, Work(task, Begin, 0, 0)),
       order := y.order + if task.Apply? then [task.op] else [],
       mark := if task.CopyBooks? then |y.order| else y.mark)
  }

  function MoveOn(m: Arithmetic, y: System, v: Move): System
    requires v.WriteOne? ==> y.active.Busy? && Fits(y.active.work, y.shared) && y.active.work.pc != Done
    requires v.Proceed? && v.action.WriterResume? ==> v.action.t in y.tasks
  {
    match v
    case Arrive(t, task) =>
      var y' := y.(lock := Do(y.lock, WriterLock(t)), tasks := y.tasks[t := task]);
      if y.lock.WriterMayEnter() then Acquire(y', t, task) else y'
    case Proceed(a) =>
      var y' := y.(lock := Do(y.lock, a));
      if a.WriterResume? && y.lock.WriterMayEnter() then Acquire(y', a.t, y.tasks[a.t])
      else if a.WriterUnlock? then y'.(active := Idle)
      else y'
    case WriteOne =>
      var (w, x) := Micro(m, y.active.work, y.shared);
      y.(active := y.active.(work := w), shared := x)
  }

  /** The copy, once finished, is the books at the mark and subscribes right after them. */
  ghost predicate CopyIsCut(m: Arithmetic, base: Ledger, y: System) {
    && y.mark <= |y.order|
    && var l := Run(m, base, y.order[..y.mark]);
       var pc := if y.active.Busy? && y.active.work.task.CopyBooks? then Left(y.active.work.pc) else 0;
       && (pc <= 2 ==> y.shared.copy.clients == l.clients)
       && (pc <= 1 ==> y.shared.copy.history == l.history)
       && (pc <= 0 ==> y.shared.copy.from == |EmitAll(m, base, y.order[..y.mark])|)
       && (pc > 0 ==> y.mark == |y.order|)
  }

  ghost predicate WriterWaits(l: Lock, t: Thread) {
    l.At(t, WriterBlocked) || l.At(t, WriterSignalled)
  }

  /** The interleaved system is, at every moment, a sequential run with one writer under way. */
  ghost predicate Serial(m: Arithmetic, base: Ledger, y: System) {
    && Sound(y.lock)
    && (forall t :: WriterWaits(y.lock, t) ==> t in y.tasks)
    && var final := (Run(m, base, y.order), EmitAll(m, base, y.order));
       match y.active
       case Idle => (forall t :: !y.lock.At(t, Writing)) && (y.shared.books, y.shared.sent) == final
       case Busy(t, w) => y.lock.At(t, Writing) && Fits(w, y.shared) && Complete(m, w, y.shared) == final
  }

  ghost predicate Invariant(m: Arithmetic, base: Ledger, y: System) {
    Serial(m, base, y) && CopyIsCut(m, base, y)
  }

  /** A free lock, these books, nothing sent and nothing copied. */
  predicate Initial(base: Ledger, y: System) {
    && Free(y.lock) && y.tasks == map[] && y.active.Idle? && y.order == [] && y.mark == 0
    && y.shared == Shared(base, [], Copy(base.clients, base.history, 0))
  }

  lemma InitialIsSerial(m: Arithmetic, base: Ledger, y: System)
    requires Initial(base, y)
    ensures Invariant(m, base, y)
  {
    EmptyCounts(y.lock);
    assert y.order[..0] == [];
  }

  lemma AcquireIsSerial(m: Arithmetic, base: Ledger, y: System, t: Thread, task: Task)
    requires Sound(y.lock) && y.lock.At(t, Writing) && y.active.Idle?
    requires (y.shared.books, y.shared.sent) == (Run(m, base, y.order), EmitAll(m, base, y.order))
    requires forall s :: WriterWaits(y.lock, s) ==> s in y.tasks
    ensures Serial(m, base, Acquire(y, t, task))
  {
    TaskCompletes(m, task, y.shared);
    if task.Apply? {
      RunSnoc(m, base, y.order, task.op);
    } else {
      assert y.order + [] == y.order && y.shared.sent + [] == y.shared.sent;
    }
  }

  /** Who writes and which writers wait, after a step of the lock. */
  lemma LockView(l: Lock, a: Action)
    requires Sound(l) && Enabled(l, a)
    ensures var l', acquired := Do(l, a), (a.WriterLock? || a.WriterResume?) && l.WriterMayEnter();
            && (forall s :: l'.At(s, Writing) <==> (l.At(s, Writing) && !(a.WriterUnlock? && s == a.t)) || (acquired && s == a.t))
            && (forall s :: WriterWaits(l', s) ==> WriterWaits(l, s) || (a.WriterLock? && s == a.t))
    ensures l.WriterMayEnter() || a.WriterUnlock? ==> forall s :: l.At(s, Writing) ==> a.WriterUnlock? && s == a.t
  {
    CountZero(l, Writing);
    if a.WriterUnlock? {
      forall s | l.At(s, Writing) ensures s == a.t {
        CountOne(l, Writing, s, a.t);
      }
    }
  }

  lemma LockMoveIsSerial(m: Arithmetic, base: Ledger, y: System, v: Move)
    requires Serial(m, base, y) && CanMove(y, v) && !v.WriteOne?
    ensures Serial(m, base, MoveOn(m, y, v))
  {
    var a := if v.Arrive? then WriterLock(v.t) else v.action;
    StepKeepsSound(y.lock, a);
    LockView(y.lock, a);
    var tasks := if v.Arrive? then y.tasks[v.t := v.task] else y.tasks;
    var y' := y.(lock := Do(y.lock, a), tasks := tasks);
    if (a.WriterLock? || a.WriterResume?) && y.lock.WriterMayEnter() {
      AcquireIsSerial(m, base, y', a.t, tasks[a.t]);
    }
  }

  lemma WriteIsSerial(m: Arithmetic, base: Ledger, y: System)
    requires Serial(m, base, y) && CanMove(y, WriteOne)
    ensures Serial(m, base, MoveOn(m, y, WriteOne))
  {
    OneMore(m, y.active.work, y.shared);
  }

  lemma ApplyKeepsCopy(m: Arithmetic, w: Work, x: Shared)
    requires Fits(w, x) && w.pc != Done && w.task.Apply?
    ensures Micro(m, w, x).1.copy == x.copy
  {
  }

  /** The copy's writes, one by one, on books nobody else can change meanwhile. */
  lemma CopyWriteCut(w: Work, x: Shared, l: Ledger, from: nat)
    requires w.task == CopyBooks && Fits(w, x) && w.pc != Done && x.books == l && |x.sent| == from
    requires Left(w.pc) <= 2 ==> x.copy.clients == l.clients
    requires Left(w.pc) <= 1 ==> x.copy.history == l.history
    ensures var (w', x') := CopyWrite(w, x);
            && (Left(w'.pc) <= 2 ==> x'.copy.clients == l.clients)
            && (Left(w'.pc) <= 1 ==> x'.copy.history == l.history)
            && (Left(w'.pc) <= 0 ==> x'.copy.from == from)
  {
  }

  lemma WriteKeepsCut(m: Arithmetic, base: Ledger, y: System)
    requires Invariant(m, base, y) && CanMove(y, WriteOne)
    ensures CopyIsCut(m, base, MoveOn(m, y, WriteOne))
  {
    var w, x := y.active.work, y.shared;
    if w.task.CopyBooks? {
      assert y.order[..y.mark] == y.order;
      CopyCompletes(m, w, x);
      CopyWriteCut(w, x, Run(m, base, y.order), |EmitAll(m, base, y.order)|);
    } else {
      ApplyKeepsCopy(m, w, x);
    }
  }

  lemma AcquireKeepsCut(m: Arithmetic, base: Ledger, y: System, t: Thread, task: Task)
    requires CopyIsCut(m, base, y) && y.active.Idle?
    ensures CopyIsCut(m, base, Acquire(y, t, task))
  {
    var y' := Acquire(y, t, task);
    assert y'.order[..y.mark] == y.order[..y.mark];
  }

  lemma LockMoveKeepsCut(m: Arithmetic, base: Ledger, y: System, v: Move)
    requires Invariant(m, base, y) && CanMove(y, v) && !v.WriteOne?
    ensures CopyIsCut(m, base, MoveOn(m, y, v))
  {
    var a := if v.Arrive? then WriterLock(v.t) else v.action;
    LockView(y.lock, a);
    if (a.WriterLock? || a.WriterResume?) && y.lock.WriterMayEnter() {
      var tasks := if v.Arrive? then y.tasks[v.t := v.task] else y.tasks;
      AcquireKeepsCut(m, base, y.(lock := Do(y.lock, a), tasks := tasks), a.t, tasks[a.t]);
    }
  }

  ghost predicate Moves(m: Arithmetic, y: System, vs: seq<Move>)
    decreases vs
  {
    vs == [] || (CanMove(y, vs[0]) && Moves(m, MoveOn(m, y, vs[0]), vs[1..]))
  }

  ghost function Reached(m: Arithmetic, y: System, vs: seq<Move>): System
    requires Moves(m, y, vs)
    decreases vs
  {
    if vs == [] then y else Reached(m, MoveOn(m, y, vs[0]), vs[1..])
  }

  /** However the threads interleave, the system stays a sequential run in lock-acquisition order. */
  lemma {:induction false} InterleavingsAreSerial(m: Arithmetic, base: Ledger, y: System, vs: seq<Move>)
    requires Invariant(m, base, y) && Moves(m, y, vs)
    ensures Invariant(m, base, Reached(m, y, vs))
    decreases vs
  {
    if vs != [] {
      if vs[0].WriteOne? {
        WriteKeepsCut(m, base, y);
        WriteIsSerial(m, base, y);
      } else {
        LockMoveKeepsCut(m, base, y, vs[0]);
        LockMoveIsSerial(m, base, y, vs[0]);
      }
      InterleavingsAreSerial(m, base, MoveOn(m, y, vs[0]), vs[1..]);
    }
  }

  ghost predicate Quietly(v: Move) {
    !v.Arrive? && (v.Proceed? ==> Quiet(v.action))
  }

  lemma SerialCanMove(m: Arithmetic, base: Ledger, y: System)
    requires Serial(m, base, y) && Inside(y.lock) > 0
    ensures exists v :: Quietly(v) && CanMove(y, v)
  {
    SomebodyCanMove(y.lock);
    var a :| Quiet(a) && Enabled(y.lock, a);
    if a.WriterUnlock? {
      WriterAtWork(m, base, y, a.t);
      if y.active.work.pc != Done {
        assert Quietly(WriteOne) && CanMove(y, WriteOne);
      } else {
        assert Quietly(Proceed(a)) && CanMove(y, Proceed(a));
      }
    } else {
      assert a.WriterResume? ==> WriterWaits(y.lock, a.t);
      assert Quietly(Proceed(a)) && CanMove(y, Proceed(a));
    }
  }

  lemma WriterAtWork(m: Arithmetic, base: Ledger, y: System, t: Thread)
    requires Serial(m, base, y) && y.lock.At(t, Writing)
    ensures y.active.Busy? && Fits(y.active.work, y.shared)
  {
  }

  /** Nobody is ever stuck: while a thread is inside the lock some step other than an arrival is possible. */
  lemma SystemNeverStuck(m: Arithmetic, base: Ledger, y0: System, vs: seq<Move>)
    requires Initial(base, y0) && Moves(m, y0, vs) && Inside(Reached(m, y0, vs).lock) > 0
    ensures exists v :: Quietly(v) && CanMove(Reached(m, y0, vs), v)
  {
    InitialIsSerial(m, base, y0);
    InterleavingsAreSerial(m, base, y0, vs);
    SerialCanMove(m, base, Reached(m, y0, vs));
  }

  // ----- what readers see -----

  /** Thread t stays inside the reader side throughout. */
  ghost predicate ReadsThroughout(m: Arithmetic, y: System, vs: seq<Move>, t: Thread)
    requires Moves(m, y, vs)
    decreases vs
  {
    y.lock.At(t, Reading) && (vs == [] || ReadsThroughout(m, MoveOn(m, y, vs[0]), vs[1..], t))
  }

  lemma NobodyWrites(m: Arithmetic, base: Ledger, y: System, t: Thread)
    requires Serial(m, base, y) && y.lock.At(t, Reading)
    ensures y.active.Idle? && !y.lock.WriterMayEnter()
  {
    CountZero(y.lock, Writing);
    CountZero(y.lock, Reading);
  }

  /** While a reader is inside nothing the lock guards changes, whatever the other threads do. */
  lemma {:induction false} BooksStandStill(m: Arithmetic, base: Ledger, y: System, vs: seq<Move>, t: Thread)
    requires Invariant(m, base, y) && Moves(m, y, vs) && ReadsThroughout(m, y, vs, t)
    ensures Reached(m, y, vs).shared == y.shared && Reached(m, y, vs).order == y.order
    decreases vs
  {
    if vs != [] {
      NobodyWrites(m, base, y, t);
      InterleavingsAreSerial(m, base, y, [vs[0]]);
      var y' := MoveOn(m, y, vs[0]);
      assert Reached(m, y, [vs[0]]) == Reached(m, y', []) == y';
      BooksStandStill(m, base, y', vs[1..], t);
    }
  }

  lemma {:induction false} PartOfSection(m: Arithmetic, y: System, vs: seq<Move>, t: Thread, k: nat)
    requires Moves(m, y, vs) && ReadsThroughout(m, y, vs, t) && k <= |vs|
    ensures Moves(m, y, vs[..k]) && ReadsThroughout(m, y, vs[..k], t)
    decreases k
  {
    if k > 0 {
      assert vs[..k][0] == vs[0] && vs[..k][1..] == vs[1..][..k - 1];
      PartOfSection(m, MoveOn(m, y, vs[0]), vs[1..], t, k - 1);
    }
  }

  /** Account i of the books, as it stands after k moves, is c. */
  ghost predicate Glimpsed(m: Arithmetic, y: System, vs: seq<Move>, k: nat, i: nat, c: Account) {
    && k <= |vs| && Moves(m, y, vs[..k])
    && var cs := Reached(m, y, vs[..k]).shared.books.clients;
       i < |cs| && c == cs[i]
  }

  /** A listing made account by account, each read at some moment of its own, up to the end of the books. */
  ghost predicate Listed(m: Arithmetic, y: System, vs: seq<Move>, listing: seq<Account>)
    requires Moves(m, y, vs)
  {
    && |listing| == |Reached(m, y, vs).shared.books.clients|
    && forall i :: 0 <= i < |listing| ==> exists k: nat :: Glimpsed(m, y, vs, k, i, listing[i])
  }

  lemma ListingIsTheBooks(m: Arithmetic, base: Ledger, y: System, vs: seq<Move>, t: Thread, listing: seq<Account>)
    requires Invariant(m, base, y) && Moves(m, y, vs) && ReadsThroughout(m, y, vs, t) && Listed(m, y, vs, listing)
    ensures listing == y.shared.books.clients
  {
    BooksStandStill(m, base, y, vs, t);
    forall i | 0 <= i < |listing| ensures listing[i] == y.shared.books.clients[i] {
      var k: nat :| Glimpsed(m, y, vs, k, i, listing[i]);
      PartOfSection(m, y, vs, t, k);
      BooksStandStill(m, base, y, vs[..k], t);
    }
  }

  /**
   Isolation: throughout a reading section, after any run, the books are those of
   a sequential run of the tasks in lock-acquisition order, the updates already
   sent are that run's, in history order, and none of it changes until the
   reader leaves; so what it lists account by account is one state of that run.
   */
  lemma ReadersSeeSerialBooks(m: Arithmetic, base: Ledger, y0: System, vs: seq<Move>, section: seq<Move>, t: Thread,
                              listing: seq<Account>)
    requires Initial(base, y0) && Moves(m, y0, vs)
    requires var y := Reached(m, y0, vs);
             Moves(m, y, section) && ReadsThroughout(m, y, section, t) && Listed(m, y, section, listing)
    ensures var y := Reached(m, y0, vs);
            && Reached(m, y, section).shared == y.shared && Reached(m, y, section).order == y.order
            && y.shared.books == Run(m, base, y.order)
            && y.shared.sent == EmitAll(m, base, y.order)
            && y.shared.books.history == base.history + Announced(y.shared.sent)
            && listing == Run(m, base, y.order).clients
  {
    InitialIsSerial(m, base, y0);
    InterleavingsAreSerial(m, base, y0, vs);
    var y := Reached(m, y0, vs);
    NobodyWrites(m, base, y, t);
    BooksStandStill(m, base, y, section, t);
    ListingIsTheBooks(m, base, y, section, t, listing);
    UpdatesFollowHistory(m, base, y.order);
  }

  /** The balances a reader of a fresh primary lists, one after the other, add up to all the money. */
  lemma ReadersSeeAllTheMoney(y0: System, vs: seq<Move>, section: seq<Move>, t: Thread, listing: seq<Account>)
    requires Initial(EMPTY, y0) && Moves(Single, y0, vs)
    requires var y := Reached(Single, y0, vs);
             && Moves(Single, y, section) && ReadsThroughout(Single, y, section, t) && Listed(Single, y, section, listing)
             && (forall op :: op in y.order ==> NonNegative(op)) && |Run(Exact, EMPTY, y.order).clients| <= MAX_CLIENTS
    ensures var y := Reached(Single, y0, vs);
            Total(listing, BalanceOf) == y.shared.books.totalBalance == INITIAL_BALANCE * |listing|
  {
    ReadersSeeSerialBooks(Single, EMPTY, y0, vs, section, t, listing);
    FreshPrimary(Reached(Single, y0, vs).order);
  }

  // ----- the copy for a new backup -----

  lemma CopyFits(m: Arithmetic, base: Ledger, y: System)
    requires Invariant(m, base, y) && y.active.Idle?
    ensures var before, after := y.order[..y.mark], y.order[y.mark..];
            && y.shared.copy.clients == Run(m, base, before).clients
            && y.shared.copy.history == Run(m, base, before).history
            && y.shared.copy.from <= |y.shared.sent|
            && y.shared.sent[y.shared.copy.from..] == EmitAll(m, Run(m, base, before), after)
            && y.shared.books == Run(m, Run(m, base, before), after)
  {
    var before, after := y.order[..y.mark], y.order[y.mark..];
    assert y.order == before + after;
    RunConcat(m, base, before, after);
    EmitConcat(m, base, before, after);
  }

  /**
   The copy for a new backup is a cut of the sequential run: it holds the books
   at some moment, and the packets sent after the subscription are exactly the
   updates of the operations after that moment.
   */
  lemma CopyAndUpdatesFitTogether(m: Arithmetic, base: Ledger, y0: System, vs: seq<Move>)
    requires Initial(base, y0) && Moves(m, y0, vs) && Reached(m, y0, vs).active.Idle?
    ensures var y := Reached(m, y0, vs);
            y.mark <= |y.order| &&
            var before, after := y.order[..y.mark], y.order[y.mark..];
            && y.shared.copy.clients == Run(m, base, before).clients
            && y.shared.copy.history == Run(m, base, before).history
            && y.shared.copy.from <= |y.shared.sent|
            && y.shared.sent[y.shared.copy.from..] == EmitAll(m, Run(m, base, before), after)
            && y.shared.books == Run(m, Run(m, base, before), after)
  {
    InitialIsSerial(m, base, y0);
    InterleavingsAreSerial(m, base, y0, vs);
    var y := Reached(m, y0, vs);
    assert y.mark <= |y.order|;
    CopyFits(m, base, y);
  }

  /** The packets made from a copy, after the lock has been released. */
  function CopyPackets(copy: Copy): seq<Packet> {
    ClientPackets(copy.clients) + HistoryPackets(copy.history)
  }

  /**
   From threads to backup: however the threads interleaved write by write, and
   however the copy's packets are then shuffled with those sent after the
   subscription, a fresh backup ends with the books.
   */
  lemma CopiedBackupConverges(m: Arithmetic, base: Ledger, y0: System, vs: seq<Move>, out: seq<Packet>)
    requires Sane(base) && Initial(base, y0) && Moves(m, y0, vs)
    requires var x := Reached(m, y0, vs).shared;
             && Reached(m, y0, vs).active.Idle? && x.copy.from <= |x.sent|
             && Interleaved(multiset(CopyPackets(x.copy)), x.sent[x.copy.from..], out)
    ensures Agrees(Reached(m, y0, vs).shared.books, ReceiveAll(m, EMPTY, out))
  {
    CopyAndUpdatesFitTogether(m, base, y0, vs);
    var y := Reached(m, y0, vs);
    var p := Run(m, base, y.order[..y.mark]);
    RunKeepsSane(m, base, y.order[..y.mark]);
    assert CopyPackets(y.shared.copy) == Snapshot(p);
    SnapshotConfluence(m, p, y.order[y.mark..], out);
  }
}
