/**
 The client's side of a transfer: bounded retransmission under one sequence
 number, and the agreement of that number with the server's request counter over
 a network that loses, duplicates and reorders packets.
 */
module RetryProtocol {
  import opened Binary32
  import opened LedgerModel
  import opened LedgerTheorems

  const MAX_RETRIES: nat := 5

  datatype Ack = Ack(to: Address, seqn: int, reply: Reply)

  /** The answers after which a client moves on to its next sequence number. */
  predicate Advances(s: Status) {
    s == Success || s == Duplicate
  }

  function NextSeqn(seqn: int, s: Status): int {
    if Advances(s) then seqn + 1 else seqn
  }

  // ----- one command at the client -----

  datatype Arrival = Timeout | OtherPacket | TransactionAck(ack: Ack)

  datatype Outcome = NoAnswer | Answer(ack: Ack)

  predicate Acceptable(x: Arrival, seqn: int) {
    x.TransactionAck? && x.ack.seqn == seqn
  }

  class Client {
    const address: Address
    var sequenceNumber: int

    constructor (address: Address)
      ensures sequenceNumber == 1 && this.address == address
    {
      this.address := address;
      sequenceNumber := 1;
    }

    /**
     Sends the request and listens once, up to five times; arrival k is what
     attempt k hears. Whatever is not the matching acknowledgement costs an
     attempt, stale acknowledgements included.
     */
    method ExecuteRequestWithRetries(dest: Address, value: int, arrivals: nat -> Arrival)
      returns (outcome: Outcome, sent: seq<Request>)
      ensures 1 <= |sent| <= MAX_RETRIES
      ensures forall i :: 0 <= i < |sent| ==> sent[i] == Request(address, dest, value, sequenceNumber)
      ensures forall k :: 0 <= k < |sent| - 1 ==> !Acceptable(arrivals(k), sequenceNumber)
      ensures outcome.Answer? ==>
                Acceptable(arrivals(|sent| - 1), sequenceNumber) && outcome.ack == arrivals(|sent| - 1).ack
      ensures outcome.NoAnswer? <==> forall k :: 0 <= k < MAX_RETRIES ==> !Acceptable(arrivals(k), sequenceNumber)
    {
      var retries: nat := 0;
      sent := [];
      while retries < MAX_RETRIES
        invariant retries <= MAX_RETRIES && |sent| == retries
        invariant forall i :: 0 <= i < |sent| ==> sent[i] == Request(address, dest, value, sequenceNumber)
        invariant forall k :: 0 <= k < retries ==> !Acceptable(arrivals(k), sequenceNumber)
      {
        sent := sent + [Request(address, dest, value, sequenceNumber)];
        var heard := arrivals(retries);
        if heard.TransactionAck? && heard.ack.seqn == sequenceNumber {
          return Answer(heard.ack), sent;
        }
        retries := retries + 1;
      }
      outcome := NoAnswer;
    }

    /** The number advances exactly when the first acceptable answer is a success or a duplicate. */
    method ProcessCommand(dest: Address, value: int, arrivals: nat -> Arrival) returns (sent: seq<Request>)
      modifies this
      ensures 1 <= |sent| <= MAX_RETRIES
      ensures sequenceNumber == old(sequenceNumber) || sequenceNumber == old(sequenceNumber) + 1
      ensures sequenceNumber == old(sequenceNumber) + 1 <==>
                var last := arrivals(|sent| - 1);
                Acceptable(last, old(sequenceNumber)) && Advances(last.ack.reply.status)
    {
      var outcome;
      outcome, sent := ExecuteRequestWithRetries(dest, value, arrivals);
      if outcome.Answer? {
        match outcome.ack.reply.status {
          case Success => sequenceNumber := sequenceNumber + 1;
          case InsufficientFunds =>
          case ClientNotFound =>
          case Duplicate => sequenceNumber := sequenceNumber + 1;
          case OutOfSequence =>
        }
      }
    }
  }

  // ----- clients, server and network -----

  datatype Pending = Nothing | Waiting(dest: Address, value: int, attempts: nat)

  datatype Process = Process(seqn: int, pending: Pending)

  /**
   One server and one process per client address. The network is the set of
   packets ever sent: any of them may arrive at any time, repeatedly, or never.
   */
  datatype World = World(
    books: Ledger,
    clients: map<Address, Process>,
    requests: set<Request>,
    acks: set<Ack>)

  const QUIET_WORLD: World := World(EMPTY, map[], {}, {})

  datatype Turn =
    | Connect(c: Address)                             // discovery adds the client
    | Issue(c: Address, dest: Address, value: int)    // a new command, first attempt
    | Resend(c: Address)                              // a further attempt
    | GiveUp(c: Address)                              // after the fifth
    | Handle(request: Request)                        // a request reaches the server
    | Accept(c: Address, ack: Ack)                    // a matching answer reaches the client
    | Restart(c: Address)                             // a new process for the address, at number 1

  predicate Waits(y: World, c: Address) {
    c in y.clients && y.clients[c].pending.Waiting?
  }

  predicate Possible(y: World, t: Turn) {
    match t
    case Connect(c) => c !in y.clients
    case Issue(c, _, _) => c in y.clients && y.clients[c].pending.Nothing?
    case Resend(c) => Waits(y, c) && y.clients[c].pending.attempts < MAX_RETRIES
    case GiveUp(c) => Waits(y, c) && y.clients[c].pending.attempts == MAX_RETRIES
    case Handle(r) => r in y.requests
    case Accept(c, a) => Waits(y, c) && a in y.acks && a.to == c && a.seqn == y.clients[c].seqn
    case Restart(c) => c in y.clients
  }

  function Current(c: Address, p: Process): Request
    requires p.pending.Waiting?
  {
    Request(c, p.pending.dest, p.pending.value, p.seqn)
  }

  function Play(m: Arithmetic, y: World, t: Turn): World
    requires Possible(y, t)
  {
    match t
    case Connect(c) =>
      y.(books := JoinEffect(m, y.books, c), clients := y.clients[c := Process(1, Nothing)])
    case Issue(c, dest, value) =>
      var p := y.clients[c].(pending := Waiting(dest, value, 1));
      y.(clients := y.clients[c := p], requests := y.requests + {Current(c, p)})
    case Resend(c) =>
      var p := y.clients[c];
      var p' := p.(pending := p.pending.(attempts := p.pending.attempts + 1));
      y.(clients := y.clients[c := p'], requests := y.requests + {Current(c, p')})
    case GiveUp(c) =>
      y.(clients := y.clients[c := y.clients[c].(pending := Nothing)])
    case Handle(r) =>
      y.(books := TransferEffect(m, y.books, r),
         acks := y.acks + {Ack(r.source, r.seqn, ReplyOf(m, y.books, r))})
    case Accept(c, a) =>
      y.(clients := y.clients[c := Process(NextSeqn(y.clients[c].seqn, a.reply.status), Nothing)])
    case Restart(c) =>
      y.(clients := y.clients[c := Process(1, Nothing)])
  }

  // ----- what every turn keeps -----

  /** A client is at most one number ahead of what the server has applied for it. */
  ghost predicate NotAhead(y: World, c: Address) {
    c in y.clients ==> Has(y.books.clients, c) && 1 <= y.clients[c].seqn <= LastReq(y.books, c) + 1
  }

  /** So is every request under way, however old. */
  ghost predicate RequestNotAhead(y: World, r: Request) {
    r.source in y.clients && r.seqn <= LastReq(y.books, r.source) + 1
  }

  ghost predicate AckTrue(y: World, a: Ack) {
    && a.reply.status != OutOfSequence
    && (Advances(a.reply.status) ==> a.seqn <= a.reply.lastReq <= LastReq(y.books, a.to))
  }

  /** The command under way has been sent. */
  ghost predicate UnderWay(y: World, c: Address) {
    Waits(y, c) ==> Current(c, y.clients[c]) in y.requests
  }

  /** What holds even when clients restart. */
  ghost predicate Orderly(y: World) {
    && ExactlyOnce(y.books)
    && (forall c :: Has(y.books.clients, c) ==> c in y.clients)
    && (forall c :: NotAhead(y, c) && UnderWay(y, c))
    && (forall r :: r in y.requests ==> RequestNotAhead(y, r))
    && (forall a :: a in y.acks ==> AckTrue(y, a))
    && (forall i :: 0 <= i < |y.books.history| ==> RequestOf(y.books.history[i]) in y.requests)
  }

  /** Without restarts no client falls behind either. */
  ghost predicate NotBehind(y: World, c: Address) {
    c in y.clients ==> LastReq(y.books, c) <= y.clients[c].seqn
  }

  predicate RequestNotNewer(y: World, r: Request) {
    r.source in y.clients && r.seqn <= y.clients[r.source].seqn
  }

  ghost predicate Agreement(y: World) {
    && Orderly(y)
    && (forall c :: NotBehind(y, c))
    && (forall r :: r in y.requests ==> RequestNotNewer(y, r))
  }

  /** The server's books move on by one operation; nothing that held of a client, a request or an answer is lost. */
  lemma BooksMoveOn(m: Arithmetic, y: World, op: Op, y': World)
    requires Orderly(y) && y'.books == Step(m, y.books, op)
    requires forall c :: c in y.clients ==> c in y'.clients && y'.clients[c] == y.clients[c]
    ensures forall c :: c in y.clients ==> NotAhead(y', c)
    ensures forall q :: q in y.requests ==> RequestNotAhead(y', q)
    ensures forall a :: a in y.acks ==> AckTrue(y', a)
  {
    forall c | c in y.clients ensures NotAhead(y', c) {
      assert NotAhead(y, c);
      StepRaisesCounters(m, y.books, op, c);
    }
    forall q | q in y.requests ensures RequestNotAhead(y', q) {
      assert RequestNotAhead(y, q);
      StepRaisesCounters(m, y.books, op, q.source);
    }
    forall a | a in y.acks ensures AckTrue(y', a) {
      assert AckTrue(y, a);
      StepRaisesCounters(m, y.books, op, a.to);
    }
  }

  lemma AnswerIsTrue(m: Arithmetic, y: World, r: Request)
    requires Orderly(y) && r in y.requests
    ensures AckTrue(Play(m, y, Handle(r)), Ack(r.source, r.seqn, ReplyOf(m, y.books, r)))
    ensures StatusOf(m, y.books, r) != OutOfSequence
  {
    assert RequestNotAhead(y, r) && NotAhead(y, r.source);
    ReplyTellsTheTruth(m, y.books, r);
  }

  lemma HandleOrderly(m: Arithmetic, y: World, r: Request)
    requires Orderly(y) && r in y.requests
    ensures Orderly(Play(m, y, Handle(r)))
    ensures StatusOf(m, y.books, r) != OutOfSequence
  {
    var y' := Play(m, y, Handle(r));
    StepKeepsExactlyOnce(m, y.books, Transfer(r));
    BooksMoveOn(m, y, Transfer(r), y');
    AnswerIsTrue(m, y, r);
    LogStaysAskedFor(m, y, r);
    forall c ensures NotAhead(y', c) && UnderWay(y', c) && (Has(y'.books.clients, c) ==> c in y'.clients) {
      assert UnderWay(y, c);
      StepRaisesCounters(m, y.books, Transfer(r), c);
    }
  }

  lemma LogStaysAskedFor(m: Arithmetic, y: World, r: Request)
    requires Orderly(y) && r in y.requests
    ensures var y' := Play(m, y, Handle(r));
            forall i :: 0 <= i < |y'.books.history| ==> RequestOf(y'.books.history[i]) in y'.requests
  {
    ReplyTellsTheTruth(m, y.books, r);
    var h, h' := y.books.history, Play(m, y, Handle(r)).books.history;
    forall i | 0 <= i < |h'| ensures RequestOf(h'[i]) in y.requests {
      assert i < |h| ==> h'[i] == h[i];
    }
  }

  lemma ConnectOrderly(m: Arithmetic, y: World, c: Address)
    requires Orderly(y) && c !in y.clients
    ensures Orderly(Play(m, y, Connect(c)))
  {
    var y' := Play(m, y, Connect(c));
    StepKeepsExactlyOnce(m, y.books, Join(c));
    BooksMoveOn(m, y, Join(c), y');
    FindAfterAppend(y.books.clients, NewAccount(c));
    forall d ensures NotAhead(y', d) && UnderWay(y', d) && (Has(y'.books.clients, d) ==> d in y'.clients) {
      assert UnderWay(y, d);
      StepRaisesCounters(m, y.books, Join(c), d);
    }
  }

  lemma ClientTurnOrderly(m: Arithmetic, y: World, t: Turn)
    requires Orderly(y) && Possible(y, t) && !t.Connect? && !t.Handle?
    ensures Orderly(Play(m, y, t))
  {
    var y' := Play(m, y, t);
    if t.Accept? {
      assert AckTrue(y, t.ack);
    }
    forall c ensures NotAhead(y', c) && UnderWay(y', c) {
      assert NotAhead(y, c) && UnderWay(y, c);
    }
    forall r | r in y'.requests ensures RequestNotAhead(y', r) {
      assert r in y.requests ==> RequestNotAhead(y, r);
      assert NotAhead(y, t.c);
    }
    forall a | a in y'.acks ensures AckTrue(y', a) {
      assert AckTrue(y, a);
    }
  }

  /** Loss, duplication, reordering, giving up and restarting: no request ever gets ahead of the server. */
  lemma TurnKeepsOrder(m: Arithmetic, y: World, t: Turn)
    requires Orderly(y) && Possible(y, t)
    ensures Orderly(Play(m, y, t))
  {
    match t
    case Connect(c) => ConnectOrderly(m, y, c);
    case Handle(r) => HandleOrderly(m, y, r);
    case _ => ClientTurnOrderly(m, y, t);
  }

  lemma TurnKeepsAgreement(m: Arithmetic, y: World, t: Turn)
    requires Agreement(y) && Possible(y, t) && !t.Restart?
    ensures Agreement(Play(m, y, t))
  {
    TurnKeepsOrder(m, y, t);
    var y' := Play(m, y, t);
    forall c ensures NotBehind(y', c) {
      assert NotBehind(y, c);
      if t.Handle? {
        assert RequestNotNewer(y, t.request);
        ReplyTellsTheTruth(m, y.books, t.request);
        StepRaisesCounters(m, y.books, Transfer(t.request), c);
      } else if t.Connect? {
        StepRaisesCounters(m, y.books, Join(t.c), c);
      }
    }
    forall r | r in y'.requests ensures RequestNotNewer(y', r) {
      assert r in y.requests ==> RequestNotNewer(y, r);
    }
  }

  ghost predicate Playable(m: Arithmetic, y: World, ts: seq<Turn>)
    decreases ts
  {
    ts == [] || (Possible(y, ts[0]) && Playable(m, Play(m, y, ts[0]), ts[1..]))
  }

  ghost function Played(m: Arithmetic, y: World, ts: seq<Turn>): World
    requires Playable(m, y, ts)
    decreases ts
  {
    if ts == [] then y else Played(m, Play(m, y, ts[0]), ts[1..])
  }

  lemma {:induction false} OneMoreTurn(m: Arithmetic, y: World, ts: seq<Turn>, t: Turn)
    requires Playable(m, y, ts) && Possible(Played(m, y, ts), t)
    ensures Playable(m, y, ts + [t]) && Played(m, y, ts + [t]) == Play(m, Played(m, y, ts), t)
    decreases ts
  {
    if ts == [] {
      assert [t][1..] == [] && ts + [t] == [t];
      assert Playable(m, Play(m, y, t), []);
    } else {
      assert (ts + [t])[1..] == ts[1..] + [t];
      OneMoreTurn(m, Play(m, y, ts[0]), ts[1..], t);
    }
  }

  lemma ThreeTurns(m: Arithmetic, y: World, t0: Turn, t1: Turn, t2: Turn)
    requires Playable(m, y, [t0, t1, t2])
    ensures Possible(y, t0)
    ensures var y1 := Play(m, y, t0);
            && Possible(y1, t1)
            && var y2 := Play(m, y1, t1);
               Possible(y2, t2) && Played(m, y, [t0, t1, t2]) == Play(m, y2, t2)
  {
    var ts := [t0, t1, t2];
    assert ts[1..] == [t1, t2] && [t1, t2][1..] == [t2] && [t2][1..] == [];
    assert Playable(m, Play(m, y, t0), [t1, t2]);
    var y2 := Play(m, Play(m, y, t0), t1);
    assert Playable(m, y2, [t2]) && Played(m, y2, [t2]) == Play(m, y2, t2);
    assert Played(m, Play(m, y, t0), [t1, t2]) == Played(m, y2, [t2]);
  }

  /** Three turns playable from where a run leads are playable after it. */
  lemma ThreeMoreTurns(m: Arithmetic, y: World, ts: seq<Turn>, z: World, t0: Turn, t1: Turn, t2: Turn)
    requires Playable(m, y, ts) && Played(m, y, ts) == z && Playable(m, z, [t0, t1, t2])
    ensures Playable(m, y, ts + [t0, t1, t2]) && Played(m, y, ts + [t0, t1, t2]) == Played(m, z, [t0, t1, t2])
  {
    ThreeTurns(m, z, t0, t1, t2);
    OneMoreTurn(m, y, ts, t0);
    OneMoreTurn(m, y, ts + [t0], t1);
    OneMoreTurn(m, y, ts + [t0] + [t1], t2);
    assert ts + [t0] + [t1] + [t2] == ts + [t0, t1, t2];
  }

  lemma {:induction false} OrderAlways(m: Arithmetic, y: World, ts: seq<Turn>)
    requires Orderly(y) && Playable(m, y, ts)
    ensures Orderly(Played(m, y, ts))
    decreases ts
  {
    if ts != [] {
      TurnKeepsOrder(m, y, ts[0]);
      OrderAlways(m, Play(m, y, ts[0]), ts[1..]);
    }
  }

  lemma {:induction false} AgreementAlways(m: Arithmetic, y: World, ts: seq<Turn>)
    requires Agreement(y) && Playable(m, y, ts) && forall t :: t in ts ==> !t.Restart?
    ensures Agreement(Played(m, y, ts))
    decreases ts
  {
    if ts != [] {
      TurnKeepsAgreement(m, y, ts[0]);
      AgreementAlways(m, Play(m, y, ts[0]), ts[1..]);
    }
  }

  lemma QuietWorldAgrees()
    ensures Agreement(QUIET_WORLD)
  {
    EmptyIsSound();
  }

  /**
   From the start, over any run, restarts included: no answer is ever
   OutOfSequence, the log is exactly-once, and everything in it was asked for,
   under that very number, by its source. Without restarts every client's number
   is the server's counter or one more.
   */
  lemma SequenceNumbersAgree(m: Arithmetic, ts: seq<Turn>)
    requires Playable(m, QUIET_WORLD, ts)
    ensures var y := Played(m, QUIET_WORLD, ts);
            && (forall c :: c in y.clients ==> 1 <= y.clients[c].seqn <= LastReq(y.books, c) + 1)
            && ((forall t :: t in ts ==> !t.Restart?) ==>
                  forall c :: c in y.clients ==> LastReq(y.books, c) <= y.clients[c].seqn)
            && (forall a :: a in y.acks ==> a.reply.status != OutOfSequence)
            && (forall r :: r in y.requests ==> StatusOf(m, y.books, r) != OutOfSequence)
            && (forall i :: 0 <= i < |y.books.history| ==> RequestOf(y.books.history[i]) in y.requests)
            && ExactlyOnce(y.books)
  {
    QuietWorldAgrees();
    OrderAlways(m, QUIET_WORLD, ts);
    var y := Played(m, QUIET_WORLD, ts);
    if forall t :: t in ts ==> !t.Restart? {
      AgreementAlways(m, QUIET_WORLD, ts);
      forall c | c in y.clients ensures LastReq(y.books, c) <= y.clients[c].seqn {
        assert NotBehind(y, c);
      }
    }
    forall c | c in y.clients ensures 1 <= y.clients[c].seqn <= LastReq(y.books, c) + 1 {
      assert NotAhead(y, c);
    }
    forall a | a in y.acks ensures a.reply.status != OutOfSequence {
      assert AckTrue(y, a);
    }
    forall r | r in y.requests ensures StatusOf(m, y.books, r) != OutOfSequence {
      HandleOrderly(m, y, r);
    }
  }

  // ----- what an accepted answer means -----

  ghost predicate Logged(y: World, r: Request) {
    exists i :: 0 <= i < |y.books.history| && RequestOf(y.books.history[i]) == r
  }

  /**
   An answer that lets the client move on means that some request sent for its
   address under this number is in the log. It is the current command's whenever
   that is the only one sent under this number.
   */
  lemma AcceptedAnswerIsLogged(y: World, c: Address, a: Ack)
    requires Orderly(y) && Possible(y, Accept(c, a)) && Advances(a.reply.status)
    ensures exists r :: r in y.requests && r.source == c && r.seqn == a.seqn && Logged(y, r)
    ensures (forall r :: r in y.requests && r.source == c && r.seqn == a.seqn ==> r == Current(c, y.clients[c]))
            ==> Logged(y, Current(c, y.clients[c]))
  {
    assert AckTrue(y, a) && NotAhead(y, c);
    LoggedUpToLastReq(y.books, c, a.seqn);
    var i :| 0 <= i < |y.books.history| && y.books.history[i].source == c && y.books.history[i].seqn == a.seqn;
    assert Logged(y, RequestOf(y.books.history[i]));
  }

  // ----- a restarted client catches up -----

  /** The answers c accepted that let it move on. */
  function Advancements(ts: seq<Turn>, c: Address): nat {
    if ts == [] then 0
    else (if ts[0].Accept? && ts[0].c == c && Advances(ts[0].ack.reply.status) then 1 else 0)
         + Advancements(ts[1..], c)
  }

  function Commands(ts: seq<Turn>, c: Address): nat {
    if ts == [] then 0
    else (if ts[0].Issue? && ts[0].c == c then 1 else 0) + Commands(ts[1..], c)
  }

  /** The packets c sent. */
  function Sends(ts: seq<Turn>, c: Address): nat {
    if ts == [] then 0
    else (if (ts[0].Issue? || ts[0].Resend?) && ts[0].c == c then 1 else 0) + Sends(ts[1..], c)
  }

  /** The attempts the current command has left. */
  function AttemptsLeft(y: World, c: Address): nat {
    if Waits(y, c) && y.clients[c].pending.attempts < MAX_RETRIES then MAX_RETRIES - y.clients[c].pending.attempts else 0
  }

  lemma {:induction false} EachAnswerAdvances(m: Arithmetic, y: World, ts: seq<Turn>, c: Address)
    requires c in y.clients && Playable(m, y, ts) && forall t :: t in ts ==> t != Restart(c)
    ensures var z := Played(m, y, ts);
            c in z.clients && z.clients[c].seqn == y.clients[c].seqn + Advancements(ts, c)
    decreases ts
  {
    if ts != [] {
      assert ts[0] in ts && forall t :: t in ts[1..] ==> t in ts;
      EachAnswerAdvances(m, Play(m, y, ts[0]), ts[1..], c);
    }
  }

  /** The answers c accepted, and the commands it gave up. */
  function Accepts(ts: seq<Turn>, c: Address): nat {
    if ts == [] then 0 else (if ts[0].Accept? && ts[0].c == c then 1 else 0) + Accepts(ts[1..], c)
  }

  function GiveUps(ts: seq<Turn>, c: Address): nat {
    if ts == [] then 0 else (if ts[0] == GiveUp(c) then 1 else 0) + GiveUps(ts[1..], c)
  }

  function Pendings(y: World, c: Address): nat {
    if Waits(y, c) then 1 else 0
  }

  function AttemptsMade(y: World, c: Address): nat {
    if Waits(y, c) then y.clients[c].pending.attempts else 0
  }

  /** Every command ends once: with the first acceptable answer, whatever it says, or by being given up. */
  lemma {:induction false} EveryCommandEndsOnce(m: Arithmetic, y: World, ts: seq<Turn>, c: Address)
    requires c in y.clients && Playable(m, y, ts) && forall t :: t in ts ==> t != Restart(c)
    ensures Commands(ts, c) + Pendings(y, c) == Accepts(ts, c) + GiveUps(ts, c) + Pendings(Played(m, y, ts), c)
    decreases ts
  {
    if ts != [] {
      assert ts[0] in ts && forall t :: t in ts[1..] ==> t in ts;
      EveryCommandEndsOnce(m, Play(m, y, ts[0]), ts[1..], c);
    }
  }

  /** And none is given up before it has been sent five times. */
  lemma {:induction false} GivingUpTakesFive(m: Arithmetic, y: World, ts: seq<Turn>, c: Address)
    requires Playable(m, y, ts)
    ensures Sends(ts, c) + AttemptsMade(y, c) >= 5 * GiveUps(ts, c) + AttemptsMade(Played(m, y, ts), c)
    decreases ts
  {
    if ts != [] {
      GivingUpTakesFive(m, Play(m, y, ts[0]), ts[1..], c);
    }
  }

  /** At most five packets a command. */
  lemma {:induction false} SendsAreBounded(m: Arithmetic, y: World, ts: seq<Turn>, c: Address)
    requires Playable(m, y, ts)
    ensures Sends(ts, c) <= MAX_RETRIES * Commands(ts, c) + AttemptsLeft(y, c)
    decreases ts
  {
    if ts != [] {
      SendsAreBounded(m, Play(m, y, ts[0]), ts[1..], c);
    }
  }

  /**
   A client restarts at number 1 against a server that has applied its requests
   up to some number. Over a network that still holds packets of its earlier
   life, in every run until its next restart, its number is one more than the
   advancing answers it has accepted and never passes the server's counter by
   more than one; every command sends at most five packets. So if the counter
   stands still at L, at most L answers advance the client, and after L it holds
   L + 1.
   */
  lemma RestartCatchesUp(m: Arithmetic, y: World, c: Address, ts: seq<Turn>)
    requires Orderly(y) && Possible(y, Restart(c)) && Playable(m, Play(m, y, Restart(c)), ts)
    requires forall t :: t in ts ==> t != Restart(c)
    ensures var z := Played(m, Play(m, y, Restart(c)), ts);
            && c in z.clients
            && z.clients[c].seqn == 1 + Advancements(ts, c) <= LastReq(z.books, c) + 1
            && Sends(ts, c) <= MAX_RETRIES * Commands(ts, c)
            && (LastReq(z.books, c) == LastReq(y.books, c) ==>
                  && Advancements(ts, c) <= LastReq(y.books, c)
                  && (Advancements(ts, c) == LastReq(y.books, c) <==> z.clients[c].seqn == LastReq(y.books, c) + 1))
  {
    var y' := Play(m, y, Restart(c));
    TurnKeepsOrder(m, y, Restart(c));
    OrderAlways(m, y', ts);
    EachAnswerAdvances(m, y', ts, c);
    SendsAreBounded(m, y', ts, c);
    assert NotAhead(Played(m, y', ts), c);
  }

  /** One answered command of a client behind the server: a duplicate, which moves the client on and no money. */
  lemma DuplicateAdvances(m: Arithmetic, y: World, c: Address, dest: Address, value: int) returns (a: Ack)
    requires Orderly(y) && c in y.clients && y.clients[c].pending.Nothing? && Has(y.books.clients, dest)
    requires y.clients[c].seqn <= LastReq(y.books, c)
    ensures var turns := [Issue(c, dest, value), Handle(Request(c, dest, value, y.clients[c].seqn)), Accept(c, a)];
            && Playable(m, y, turns)
            && var z := Played(m, y, turns);
               && z.books == y.books && z.clients == y.clients[c := Process(y.clients[c].seqn + 1, Nothing)]
    ensures a.reply.status == Duplicate
  {
    assert NotAhead(y, c);
    var r := Request(c, dest, value, y.clients[c].seqn);
    a := Ack(c, r.seqn, ReplyOf(m, y.books, r));
    var t0, t1, t2 := Issue(c, dest, value), Handle(r), Accept(c, a);
    assert [t0, t1, t2] == [t0, t1] + [t2] && [t0, t1] == [t0] + [t1] && [t0] == [] + [t0];
    OneMoreTurn(m, y, [], t0);
    OneMoreTurn(m, y, [t0], t1);
    OneMoreTurn(m, y, [t0, t1], t2);
  }

  lemma {:induction false} CatchUpFrom(m: Arithmetic, y: World, done: seq<Turn>, z: World, c: Address,
                                       dest: Address, value: int) returns (ts: seq<Turn>)
    requires Playable(m, y, done) && Played(m, y, done) == z
    requires Orderly(z) && c in z.clients && z.clients[c].pending.Nothing? && Has(z.books.clients, dest)
    ensures Playable(m, y, ts)
    ensures var z', last := Played(m, y, ts), LastReq(z.books, c);
            && z'.books == z.books && c in z'.clients && z'.clients[c] == Process(last + 1, Nothing)
            && |ts| == |done| + 3 * (last + 1 - z.clients[c].seqn)
    decreases LastReq(z.books, c) + 1 - z.clients[c].seqn
  {
    assert NotAhead(z, c);
    if z.clients[c].seqn == LastReq(z.books, c) + 1 {
      ts := done;
    } else {
      var a := DuplicateAdvances(m, z, c, dest, value);
      var t0, t1, t2 := Issue(c, dest, value), Handle(Request(c, dest, value, z.clients[c].seqn)), Accept(c, a);
      OrderAlways(m, z, [t0, t1, t2]);
      ThreeMoreTurns(m, y, done, z, t0, t1, t2);
      ts := CatchUpFrom(m, y, done + [t0, t1, t2], Played(m, z, [t0, t1, t2]), c, dest, value);
    }
  }

  /** And so a client can always catch up, by as many answered commands as it lacks, each sent once. */
  lemma CatchUp(m: Arithmetic, y: World, c: Address, dest: Address, value: int) returns (ts: seq<Turn>)
    requires Orderly(y) && c in y.clients && y.clients[c].pending.Nothing? && Has(y.books.clients, dest)
    ensures Playable(m, y, ts)
    ensures var z, lacking := Played(m, y, ts), LastReq(y.books, c) + 1 - y.clients[c].seqn;
            && z.books == y.books && c in z.clients && z.clients[c] == Process(LastReq(y.books, c) + 1, Nothing)
            && |ts| == 3 * lacking
  {
    ts := CatchUpFrom(m, y, [], y, c, dest, value);
  }
}
