/**
 Whose answer a client accepts. An acknowledgement names only the sequence
 number, and a command that was given up shares its number with the next one; so
 an answer may complete a command that is never applied. This module says exactly
 when it can, for every state and every continuation.
 */
module StaleAnswers {
  import opened Binary32
  import opened LedgerModel
  import opened LedgerTheorems
  import opened RoundingLimits
  import opened RetryProtocol

  /** The server has moved past r without applying it. */
  ghost predicate PassedOver(y: World, r: Request) {
    !Logged(y, r) && r.seqn <= LastReq(y.books, r.source)
  }

  lemma TurnKeepsPassedOver(m: Arithmetic, y: World, t: Turn, r: Request)
    requires PassedOver(y, r) && Possible(y, t)
    ensures PassedOver(Play(m, y, t), r)
  {
    var y' := Play(m, y, t);
    if t.Handle? {
      var q := t.request;
      StepRaisesCounters(m, y.books, Transfer(q), r.source);
      ReplyTellsTheTruth(m, y.books, q);
      forall i | 0 <= i < |y'.books.history| ensures RequestOf(y'.books.history[i]) != r {
        assert i < |y.books.history| ==> y'.books.history[i] == y.books.history[i];
      }
    } else if t.Connect? {
      StepRaisesCounters(m, y.books, Join(t.c), r.source);
      assert y'.books.history == y.books.history;
    }
  }

  /** What the server has passed over it never applies. */
  lemma {:induction false} PassedOverForEver(m: Arithmetic, y: World, ts: seq<Turn>, r: Request)
    requires PassedOver(y, r) && Playable(m, y, ts)
    ensures PassedOver(Played(m, y, ts), r)
    decreases ts
  {
    if ts != [] {
      TurnKeepsPassedOver(m, y, ts[0], r);
      PassedOverForEver(m, Play(m, y, ts[0]), ts[1..], r);
    }
  }

  /**
   An accepted answer may belong to an earlier command: a client that has given
   up on an answered command can take that answer for whatever it sends next
   under the same number, and whatever happens afterwards that next command is
   never applied.
   */
  lemma StaleAnswerCompletesNextCommand(m: Arithmetic, y: World, c: Address, a: Ack, dest: Address, value: int,
                                        later: seq<Turn>)
    requires Orderly(y) && Possible(y, GiveUp(c)) && Possible(y, Accept(c, a)) && Advances(a.reply.status)
    requires Request(c, dest, value, a.seqn) !in y.requests
    ensures var turns, r := [GiveUp(c), Issue(c, dest, value), Accept(c, a)], Request(c, dest, value, a.seqn);
            && Playable(m, y, turns)
            && var z := Played(m, y, turns);
               && c in z.clients && z.clients[c] == Process(a.seqn + 1, Nothing)
               && r in z.requests && z.books == y.books
               && (Playable(m, z, later) ==> !Logged(Played(m, z, later), r))
  {
    var r, t0, t1, t2 := Request(c, dest, value, a.seqn), GiveUp(c), Issue(c, dest, value), Accept(c, a);
    assert AckTrue(y, a);
    assert PassedOver(y, r);
    assert [t0, t1, t2] == [t0, t1] + [t2] && [t0, t1] == [t0] + [t1] && [t0] == [] + [t0];
    OneMoreTurn(m, y, [], t0);
    OneMoreTurn(m, y, [t0], t1);
    OneMoreTurn(m, y, [t0, t1], t2);
    var z := Played(m, y, [t0, t1, t2]);
    if Playable(m, z, later) {
      assert PassedOver(z, r);
      PassedOverForEver(m, z, later, r);
    }
  }

  // ----- such a run, from the start -----

  const FIVE: Request := Request(1, 2, 5, 1)

  const SEVEN: Request := Request(1, 2, 7, 1)

  const ANSWER: Ack := Ack(1, 1, Reply(Success, 995, 1))

  /** The first of two clients sends 5 to the second, is answered, and hears nothing in five attempts. */
  const UNHEARD: seq<Turn> :=
    [Connect(1), Connect(2), Issue(1, 2, 5), Handle(FIVE), Resend(1), Resend(1), Resend(1), Resend(1)]

  lemma NextTurn(m: Arithmetic, y: World, ts: seq<Turn>, k: nat)
    requires k < |ts| && Playable(m, y, ts[..k]) && Possible(Played(m, y, ts[..k]), ts[k])
    ensures Playable(m, y, ts[..k + 1]) && Played(m, y, ts[..k + 1]) == Play(m, Played(m, y, ts[..k]), ts[k])
  {
    assert ts[..k + 1] == ts[..k] + [ts[k]];
    OneMoreTurn(m, y, ts[..k], ts[k]);
  }

  lemma FiveIsApplied()
    ensures TransferEffect(Single, TWO_CLIENTS, FIVE)
         == Ledger([Account(1, 1, 995), Account(2, 0, 1005)], [Transaction(1, 1, 2, 5, 1)], 1, 5, 2000)
    ensures ReplyOf(Single, TWO_CLIENTS, FIVE) == ANSWER.reply
  {
    TwoClientsJoin();
    SingleIsExact(1000, 5);
    ReplyTellsTheTruth(Single, TWO_CLIENTS, FIVE);
  }

  lemma ConnectedInUnheard()
    ensures Playable(Single, QUIET_WORLD, UNHEARD[..2])
    ensures Played(Single, QUIET_WORLD, UNHEARD[..2])
         == World(TWO_CLIENTS, map[1 := Process(1, Nothing), 2 := Process(1, Nothing)], {}, {})
  {
    TwoClientsJoin();
    RunSnoc(Single, EMPTY, [Join(1)], Join(2));
    assert [Join(1), Join(2)] == [Join(1)] + [Join(2)];
    RunSnoc(Single, EMPTY, [], Join(1));
    assert [Join(1)] == [] + [Join(1)];
    assert UNHEARD[..0] == [];
    NextTurn(Single, QUIET_WORLD, UNHEARD, 0);
    NextTurn(Single, QUIET_WORLD, UNHEARD, 1);
  }

  lemma ServedInUnheard()
    ensures Playable(Single, QUIET_WORLD, UNHEARD[..4])
    ensures Played(Single, QUIET_WORLD, UNHEARD[..4])
         == World(TransferEffect(Single, TWO_CLIENTS, FIVE),
                  map[1 := Process(1, Waiting(2, 5, 1)), 2 := Process(1, Nothing)], {FIVE}, {ANSWER})
  {
    FiveIsApplied();
    ConnectedInUnheard();
    NextTurn(Single, QUIET_WORLD, UNHEARD, 2);
    NextTurn(Single, QUIET_WORLD, UNHEARD, 3);
  }

  lemma ResentInUnheard()
    ensures Playable(Single, QUIET_WORLD, UNHEARD[..6])
    ensures Played(Single, QUIET_WORLD, UNHEARD[..6])
         == World(TransferEffect(Single, TWO_CLIENTS, FIVE),
                  map[1 := Process(1, Waiting(2, 5, 3)), 2 := Process(1, Nothing)], {FIVE}, {ANSWER})
  {
    ServedInUnheard();
    NextTurn(Single, QUIET_WORLD, UNHEARD, 4);
    NextTurn(Single, QUIET_WORLD, UNHEARD, 5);
  }

  lemma UnheardIsPlayable()
    ensures Playable(Single, QUIET_WORLD, UNHEARD)
    ensures Played(Single, QUIET_WORLD, UNHEARD)
         == World(TransferEffect(Single, TWO_CLIENTS, FIVE),
                  map[1 := Process(1, Waiting(2, 5, 5)), 2 := Process(1, Nothing)], {FIVE}, {ANSWER})
  {
    ResentInUnheard();
    NextTurn(Single, QUIET_WORLD, UNHEARD, 6);
    NextTurn(Single, QUIET_WORLD, UNHEARD, 7);
    assert UNHEARD[..8] == UNHEARD;
  }

  /**
   From the start: the client gives up on 5, issues 7, and takes the late answer
   for it. The 5 is in the log; the 7, which the client believes done, never will be.
   */
  lemma SevenIsNeverApplied(later: seq<Turn>)
    ensures var turns := UNHEARD + [GiveUp(1), Issue(1, 2, 7), Accept(1, ANSWER)];
            && Playable(Single, QUIET_WORLD, turns)
            && var z := Played(Single, QUIET_WORLD, turns);
               && 1 in z.clients && z.clients[1] == Process(2, Nothing)
               && Logged(z, FIVE) && SEVEN in z.requests
               && (Playable(Single, z, later) ==> !Logged(Played(Single, z, later), SEVEN))
  {
    UnheardIsPlayable();
    FiveIsApplied();
    var y := Played(Single, QUIET_WORLD, UNHEARD);
    QuietWorldAgrees();
    OrderAlways(Single, QUIET_WORLD, UNHEARD);
    StaleAnswerCompletesNextCommand(Single, y, 1, ANSWER, 2, 7, later);
    ThreeMoreTurns(Single, QUIET_WORLD, UNHEARD, y, GiveUp(1), Issue(1, 2, 7), Accept(1, ANSWER));
    assert RequestOf(y.books.history[0]) == FIVE;
  }

  // ----- exactly when an accepted answer can be another command's -----

  /** A turn during which the command c has under way stays under way. */
  predicate StaysUnderWay(t: Turn, c: Address) {
    t != GiveUp(c) && t != Restart(c) && !(t.Accept? && t.c == c)
  }

  /** After ts, c may take an answer for its command that the server has not applied. */
  ghost predicate Misled(m: Arithmetic, y: World, c: Address, ts: seq<Turn>, a: Ack)
    requires Waits(y, c)
  {
    && Playable(m, y, ts) && (forall t :: t in ts ==> StaysUnderWay(t, c))
    && Possible(Played(m, y, ts), Accept(c, a)) && Advances(a.reply.status)
    && !Logged(Played(m, y, ts), Current(c, y.clients[c]))
  }

  /** No other request of r's source was ever sent under r's number. */
  ghost predicate OnlyOne(y: World, r: Request) {
    forall q :: q in y.requests && q.source == r.source && q.seqn == r.seqn ==> q == r
  }

  /** The server has applied r, or r is the only request it can apply under that number. */
  ghost predicate OwnAnswer(y: World, r: Request) {
    if r.seqn <= LastReq(y.books, r.source) then Logged(y, r) else OnlyOne(y, r)
  }

  // ----- if the condition holds, no answer misleads -----

  lemma TurnKeepsCommand(m: Arithmetic, y: World, c: Address, t: Turn)
    requires Waits(y, c) && Possible(y, t) && StaysUnderWay(t, c)
    ensures var y' := Play(m, y, t);
            Waits(y', c) && Current(c, y'.clients[c]) == Current(c, y.clients[c])
  {
  }

  lemma TurnKeepsLogged(m: Arithmetic, y: World, t: Turn, r: Request)
    requires Possible(y, t) && Logged(y, r)
    ensures Logged(Play(m, y, t), r)
  {
    var i :| 0 <= i < |y.books.history| && RequestOf(y.books.history[i]) == r;
    if t.Handle? {
      ReplyTellsTheTruth(m, y.books, t.request);
    }
    assert Play(m, y, t).books.history[i] == y.books.history[i];
  }

  /** Logged, or alone under its number: either way it stays so while it is under way. */
  lemma TurnKeepsOwn(m: Arithmetic, y: World, c: Address, t: Turn)
    requires Waits(y, c) && Possible(y, t) && StaysUnderWay(t, c)
    requires Logged(y, Current(c, y.clients[c])) || OnlyOne(y, Current(c, y.clients[c]))
    ensures var r := Current(c, y.clients[c]); Logged(Play(m, y, t), r) || OnlyOne(Play(m, y, t), r)
  {
    var r := Current(c, y.clients[c]);
    if Logged(y, r) {
      TurnKeepsLogged(m, y, t, r);
    }
  }

  lemma {:induction false} OwnIsNeverMisled(m: Arithmetic, y: World, c: Address, ts: seq<Turn>, a: Ack)
    requires Orderly(y) && Waits(y, c)
    requires Logged(y, Current(c, y.clients[c])) || OnlyOne(y, Current(c, y.clients[c]))
    ensures !Misled(m, y, c, ts, a)
    decreases ts
  {
    if Misled(m, y, c, ts, a) {
      if ts == [] {
        AcceptedAnswerIsLogged(y, c, a);
      } else {
        assert ts[0] in ts && forall t :: t in ts[1..] ==> t in ts;
        TurnKeepsOrder(m, y, ts[0]);
        TurnKeepsCommand(m, y, c, ts[0]);
        TurnKeepsOwn(m, y, c, ts[0]);
        OwnIsNeverMisled(m, Play(m, y, ts[0]), c, ts[1..], a);
      }
    }
  }

  // ----- if it fails, some run misleads -----

  /** ts leads from y to z, c's command staying under way. */
  ghost predicate Leads(m: Arithmetic, y: World, c: Address, ts: seq<Turn>, z: World) {
    Playable(m, y, ts) && Played(m, y, ts) == z && forall t :: t in ts ==> StaysUnderWay(t, c)
  }

  lemma LeadsOn(m: Arithmetic, y: World, c: Address, ts: seq<Turn>, z: World, t: Turn)
    requires Leads(m, y, c, ts, z) && Possible(z, t) && StaysUnderWay(t, c)
    ensures Leads(m, y, c, ts + [t], Play(m, z, t))
  {
    OneMoreTurn(m, y, ts, t);
    assert forall u :: u in ts + [t] ==> u in ts || u == t;
  }

  /** A world y can reach while c waits for its answer, nothing about c's command having changed. */
  ghost predicate Meanwhile(m: Arithmetic, y: World, c: Address, z: World) {
    && Orderly(z) && c in y.clients && c in z.clients && z.clients[c] == y.clients[c] && y.requests <= z.requests
    && exists ts :: Leads(m, y, c, ts, z)
  }

  lemma MeanwhileStarts(m: Arithmetic, y: World, c: Address)
    requires Orderly(y) && c in y.clients
    ensures Meanwhile(m, y, c, y)
  {
    assert Leads(m, y, c, [], y);
  }

  predicate OfOthers(t: Turn, c: Address) {
    t.Handle? || t.c != c
  }

  lemma MeanwhileGoesOn(m: Arithmetic, y: World, c: Address, z: World, t: Turn)
    requires Meanwhile(m, y, c, z) && Possible(z, t) && OfOthers(t, c)
    ensures Meanwhile(m, y, c, Play(m, z, t))
  {
    var ts :| Leads(m, y, c, ts, z);
    TurnKeepsOrder(m, z, t);
    LeadsOn(m, y, c, ts, z, t);
  }

  /** Whoever is not known to the server connects. */
  lemma Introduce(m: Arithmetic, y: World, c: Address, z: World, d: Address) returns (z': World)
    requires Meanwhile(m, y, c, z)
    ensures Meanwhile(m, y, c, z') && z'.requests == z.requests
    ensures z'.books.history == z.books.history && Has(z'.books.clients, d)
    ensures forall a :: Has(z.books.clients, a) ==> Has(z'.books.clients, a) && Get(z'.books.clients, a) == Get(z.books.clients, a)
    ensures forall a :: a in z.clients ==> a in z'.clients && z'.clients[a] == z.clients[a]
    ensures d !in z.clients ==>
              && d in z'.clients && z'.clients[d] == Process(1, Nothing)
              && Get(z'.books.clients, d) == NewAccount(d)
  {
    z' := z;
    assert NotAhead(z, d);
    if d !in z.clients {
      MeanwhileGoesOn(m, y, c, z, Connect(d));
      FindAfterAppend(z.books.clients, NewAccount(d));
      z' := Play(m, z, Connect(d));
    }
  }

  lemma {:induction false} SomeoneElse(s: set<Address>) returns (f: Address)
    ensures f !in s && forall x :: x in s ==> x < f
    decreases s
  {
    f := 0;
    if s != {} {
      var x :| x in s;
      f := SomeoneElse(s - {x});
      f := if f > x then f else x + 1;
      assert forall v :: v in s ==> v == x || v in s - {x};
    }
  }

  /** Another client sends a transfer it can afford, and hears of its success. */
  lemma Pay(m: Arithmetic, y: World, c: Address, z: World, f: Address, d: Address, value: int) returns (z': World)
    requires Meanwhile(m, y, c, z) && f in z.clients && f != c && f != d && z.clients[f].pending.Nothing?
    requires Has(z.books.clients, d) && Has(z.books.clients, f) && z.clients[f].seqn == LastReq(z.books, f) + 1
    requires !m.Short(Get(z.books.clients, f).balance, value)
    ensures Meanwhile(m, y, c, z') && z.requests <= z'.requests
    ensures f in z'.clients && z'.clients[f] == Process(z.clients[f].seqn + 1, Nothing)
    ensures z'.books == TransferEffect(m, z.books, Request(f, d, value, z.clients[f].seqn))
    ensures StatusOf(m, z.books, Request(f, d, value, z.clients[f].seqn)) == Success
  {
    assert NotAhead(z, f);
    var r := Request(f, d, value, z.clients[f].seqn);
    var a := Ack(f, r.seqn, ReplyOf(m, z.books, r));
    ReplyTellsTheTruth(m, z.books, r);
    MeanwhileGoesOn(m, y, c, z, Issue(f, d, value));
    var z1 := Play(m, z, Issue(f, d, value));
    MeanwhileGoesOn(m, y, c, z1, Handle(r));
    var z2 := Play(m, z1, Handle(r));
    MeanwhileGoesOn(m, y, c, z2, Accept(f, a));
    z' := Play(m, z2, Accept(f, a));
  }

  /** A loan large enough, in either arithmetic: what a fresh client borrows it can pay, and the payee can then afford value. */
  lemma LoanFor(m: Arithmetic, balance: int, value: int) returns (loan: int)
    ensures !m.Short(INITIAL_BALANCE, -loan)
    ensures !m.Short(m.Debit(INITIAL_BALANCE, -loan), loan)
    ensures !m.Short(m.Credit(balance, loan), value)
  {
    var n: nat := Abs(balance) + Abs(value) + Abs(Round(value));
    loan := Pow2(n);
    Pow2Grows(n);
    assert Scaled(Abs(loan), 1, n) && Scaled(Abs(-loan), 1, n);
    RoundFixesRepresentable(loan);
    RoundFixesRepresentable(-loan);
    RoundRepresentable(value);
    RoundAtLeast(INITIAL_BALANCE + loan, loan);
    RoundAtLeast(balance + loan, Round(value));
  }

  /** The accounts of l are found unchanged in l'. */
  ghost predicate Keeps(l: Ledger, l': Ledger) {
    forall a :: Has(l.clients, a) ==> Has(l'.clients, a) && Get(l'.clients, a) == Get(l.clients, a)
  }

  /** What a newcomer's first transfer to another leaves. */
  lemma FirstTransfer(m: Arithmetic, l: Ledger, l': Ledger, r: Request)
    requires Keeps(l, l') && !Has(l.clients, r.source) && !Has(l.clients, r.dest) && r.source != r.dest
    requires StatusOf(m, l', r) == Success && Get(l'.clients, r.source) == NewAccount(r.source)
    ensures var l'' := TransferEffect(m, l', r);
            && Keeps(l, l'')
            && Has(l''.clients, r.source) && Get(l''.clients, r.source).lastReq == r.seqn
            && Get(l''.clients, r.source).balance == m.Debit(INITIAL_BALANCE, r.value)
  {
    TransferBalances(m, l', r);
    TransferView(m, l', r);
    OthersKeepAccounts(m, l, l', r);
  }

  lemma OthersKeepAccounts(m: Arithmetic, l: Ledger, l': Ledger, r: Request)
    requires Keeps(l, l') && !Has(l.clients, r.source) && !Has(l.clients, r.dest) && StatusOf(m, l', r) == Success
    ensures Keeps(l, TransferEffect(m, l', r))
  {
    TransferView(m, l', r);
    var cs := TransferEffect(m, l', r).clients;
    forall a | Has(l.clients, a) ensures Has(cs, a) && Get(cs, a) == Get(l.clients, a) {
      assert Find(cs, a) == Find(l'.clients, a);
    }
  }

  ghost predicate Newcomer(z: World, f: Address) {
    && f in z.clients && z.clients[f] == Process(1, Nothing)
    && Has(z.books.clients, f) && Get(z.books.clients, f) == NewAccount(f)
  }

  lemma TwoNewcomers(m: Arithmetic, y: World, c: Address, z: World) returns (z': World, f: Address, g: Address)
    requires Meanwhile(m, y, c, z)
    ensures Meanwhile(m, y, c, z') && z'.requests == z.requests && Keeps(z.books, z'.books)
    ensures Newcomer(z', f) && Newcomer(z', g) && f != g && f != c && g != c
    ensures !Has(z.books.clients, f) && !Has(z.books.clients, g)
  {
    f := SomeoneElse(z.clients.Keys);
    var z1 := Introduce(m, y, c, z, f);
    g := SomeoneElse(z1.clients.Keys);
    z' := Introduce(m, y, c, z1, g);
  }

  /** Of two newcomers one sends the other a transfer; a negative value is a loan to the sender. */
  lemma Borrow(m: Arithmetic, y: World, c: Address, z: World, value: int) returns (z': World, f: Address)
    requires Meanwhile(m, y, c, z) && !m.Short(INITIAL_BALANCE, value)
    ensures Meanwhile(m, y, c, z') && z.requests <= z'.requests && Keeps(z.books, z'.books)
    ensures f != c && f in z'.clients && z'.clients[f] == Process(2, Nothing)
    ensures Has(z'.books.clients, f) && Get(z'.books.clients, f).lastReq == 1
    ensures Get(z'.books.clients, f).balance == m.Debit(INITIAL_BALANCE, value)
  {
    var z1, g;
    z1, f, g := TwoNewcomers(m, y, c, z);
    z' := Pay(m, y, c, z1, f, g, value);
    FirstTransfer(m, z.books, z1.books, Request(f, g, value, 1));
  }

  /** The borrower pays c, whose balance then covers value. */
  lemma Fund(m: Arithmetic, y: World, c: Address, z: World, value: int) returns (z': World)
    requires Meanwhile(m, y, c, z)
    ensures Meanwhile(m, y, c, z') && z.requests <= z'.requests
    ensures forall a :: Has(z.books.clients, a) ==> Has(z'.books.clients, a)
    ensures Has(z'.books.clients, c) && LastReq(z'.books, c) == LastReq(z.books, c)
    ensures !m.Short(Get(z'.books.clients, c).balance, value)
  {
    assert NotAhead(z, c);
    var loan := LoanFor(m, Get(z.books.clients, c).balance, value);
    var z1, f := Borrow(m, y, c, z, -loan);
    z' := Pay(m, y, c, z1, f, c, loan);
    TransferBalances(m, z1.books, Request(f, c, loan, 2));
    TransferView(m, z1.books, Request(f, c, loan, 2));
  }

  lemma Answered(m: Arithmetic, y: World, c: Address, z: World, q: Request) returns (ts: seq<Turn>, a: Ack)
    requires Waits(y, c) && Meanwhile(m, y, c, z) && q in z.requests && q.source == c && q.seqn == y.clients[c].seqn
    ensures Leads(m, y, c, ts, Play(m, z, Handle(q))) && Possible(Play(m, z, Handle(q)), Accept(c, a))
    ensures a.reply.status == StatusOf(m, z.books, q)
  {
    MeanwhileGoesOn(m, y, c, z, Handle(q));
    ts :| Leads(m, y, c, ts, Play(m, z, Handle(q)));
    a := Ack(c, q.seqn, ReplyOf(m, z.books, q));
    ReplyTellsTheTruth(m, z.books, q);
  }

  /** An answer to q reaches c, which takes it for its command r under the same number. */
  lemma AnswerMisleads(m: Arithmetic, y: World, c: Address, z: World, q: Request)
    requires Waits(y, c) && Meanwhile(m, y, c, z) && q in z.requests && q.source == c && q.seqn == y.clients[c].seqn
    requires Advances(StatusOf(m, z.books, q)) && !Logged(Play(m, z, Handle(q)), Current(c, y.clients[c]))
    ensures exists ts, a :: Misled(m, y, c, ts, a)
  {
    var ts, a := Answered(m, y, c, z, q);
    assert Misled(m, y, c, ts, a);
  }

  /** The server has passed over r: its answer to r itself is a duplicate's. */
  lemma PassedOverMisleads(m: Arithmetic, y: World, c: Address)
    requires Orderly(y) && Waits(y, c) && PassedOver(y, Current(c, y.clients[c]))
    ensures exists ts, a :: Misled(m, y, c, ts, a)
  {
    var r := Current(c, y.clients[c]);
    assert UnderWay(y, c) && NotAhead(y, c);
    MeanwhileStarts(m, y, c);
    var z := Introduce(m, y, c, y, r.dest);
    assert StatusOf(m, z.books, r) == Duplicate;
    assert PassedOver(z, r);
    TurnKeepsPassedOver(m, z, Handle(r), r);
    AnswerMisleads(m, y, c, z, r);
  }

  /** In an exactly-once log one number of one source is one request. */
  lemma OneIsLogged(y: World, q: Request, r: Request)
    requires ExactlyOnce(y.books) && Logged(y, q) && q.source == r.source && q.seqn == r.seqn && q != r
    ensures !Logged(y, r)
  {
    var h := y.books.history;
    var i :| 0 <= i < |h| && RequestOf(h[i]) == q;
    forall j | 0 <= j < |h| ensures RequestOf(h[j]) != r {
      if i < j {
        NoRequestTwice(y.books, i, j);
      } else if j < i {
        NoRequestTwice(y.books, j, i);
      }
    }
  }

  /** Another request under r's number is still on its way, and can be made affordable. */
  lemma RivalMisleads(m: Arithmetic, y: World, c: Address, q: Request)
    requires Orderly(y) && Waits(y, c) && q in y.requests && q != Current(c, y.clients[c])
    requires q.source == c && q.seqn == y.clients[c].seqn > LastReq(y.books, c)
    ensures exists ts, a :: Misled(m, y, c, ts, a)
  {
    assert NotAhead(y, c);
    MeanwhileStarts(m, y, c);
    var z := Introduce(m, y, c, y, q.dest);
    var z' := Fund(m, y, c, z, q.value);
    assert StatusOf(m, z'.books, q) == Success;
    var z'' := Play(m, z', Handle(q));
    TurnKeepsOrder(m, z', Handle(q));
    ReplyTellsTheTruth(m, z'.books, q);
    assert RequestOf(z''.books.history[|z''.books.history| - 1]) == q;
    OneIsLogged(z'', q, Current(c, y.clients[c]));
    AnswerMisleads(m, y, c, z', q);
  }

  /**
   The exact condition. A client waits for the answer to a command. Whatever
   happens until it accepts an answer that lets it move on - and whatever the
   other clients, the network and the server do - that command will then be in
   the log, if and only if it is there already or, its number not having been
   applied yet, no other request was ever sent under that number.
   */
  lemma AnswersAreOwnExactly(m: Arithmetic, y: World, c: Address)
    requires Orderly(y) && Waits(y, c)
    ensures (forall ts, a :: !Misled(m, y, c, ts, a)) <==> OwnAnswer(y, Current(c, y.clients[c]))
  {
    var r := Current(c, y.clients[c]);
    assert UnderWay(y, c) && NotAhead(y, c);
    if OwnAnswer(y, r) {
      forall ts, a ensures !Misled(m, y, c, ts, a) {
        OwnIsNeverMisled(m, y, c, ts, a);
      }
    } else if r.seqn <= LastReq(y.books, c) {
      PassedOverMisleads(m, y, c);
    } else {
      var q :| q in y.requests && q.source == c && q.seqn == r.seqn && q != r;
      RivalMisleads(m, y, c, q);
    }
  }
}
