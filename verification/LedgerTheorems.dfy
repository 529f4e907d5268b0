/**
 What every run of a primary keeps: bookkeeping, an exactly-once log, balances
 that replay the log, conservation of money, bounded balances, and the agreement
 of the program's binary32 arithmetic with integer arithmetic.
 */
module LedgerTheorems {
  import opened Binary32
  import opened LedgerModel

  // ----- sums over accounts -----

  ghost function Total(cs: seq<Account>, f: Account -> int): int {
    if cs == [] then 0 else Total(cs[..|cs| - 1], f) + f(cs[|cs| - 1])
  }

  function BalanceOf(c: Account): int { c.balance }

  function LastReqOf(c: Account): int { c.lastReq }

  lemma {:induction false} TotalAfterUpdate(cs: seq<Account>, i: nat, c: Account, f: Account -> int)
    requires i < |cs|
    ensures Total(cs[i := c], f) == Total(cs, f) - f(cs[i]) + f(c)
  {
    var n := |cs| - 1;
    if i < n {
      assert cs[i := c][..n] == cs[..n][i := c];
      TotalAfterUpdate(cs[..n], i, c, f);
    } else {
      assert cs[i := c][..n] == cs[..n];
    }
  }

  lemma TotalAfterAppend(cs: seq<Account>, c: Account, f: Account -> int)
    ensures Total(cs + [c], f) == Total(cs, f) + f(c)
  {
    assert (cs + [c])[..|cs|] == cs;
  }

  lemma {:induction false} TotalBoundsEach(cs: seq<Account>, i: nat)
    requires i < |cs| && forall j :: 0 <= j < |cs| ==> cs[j].balance >= 0
    ensures cs[i].balance <= Total(cs, BalanceOf)
    ensures Total(cs, BalanceOf) >= 0
    decreases |cs|
  {
    var n := |cs| - 1;
    assert forall j :: 0 <= j < n ==> cs[..n][j] == cs[j];
    if n > 0 {
      TotalBoundsEach(cs[..n], if i < n then i else 0);
    }
  }

  // ----- sums and selections over the history -----

  ghost function SumValues(h: seq<Transaction>): int {
    if h == [] then 0 else SumValues(h[..|h| - 1]) + h[|h| - 1].value
  }

  /** The sequence numbers of the entries sent by c, in history order. */
  ghost function SeqnsOf(h: seq<Transaction>, c: Address): seq<int> {
    if h == [] then []
    else
      var last := h[|h| - 1];
      SeqnsOf(h[..|h| - 1], c) + if last.source == c then [last.seqn] else []
  }

  ghost function Received(h: seq<Transaction>, c: Address): int {
    if h == [] then 0
    else
      var last := h[|h| - 1];
      Received(h[..|h| - 1], c) + if last.dest == c then last.value else 0
  }

  ghost function Sent(h: seq<Transaction>, c: Address): int {
    if h == [] then 0
    else
      var last := h[|h| - 1];
      Sent(h[..|h| - 1], c) + if last.source == c then last.value else 0
  }

  /** The sequence 1, 2, ..., n. */
  ghost function Upto(n: nat): (r: seq<int>)
    ensures |r| == n && forall i :: 0 <= i < n ==> r[i] == i + 1
  {
    seq(n, i => i + 1)
  }

  lemma HistoryGrows(h: seq<Transaction>, tx: Transaction)
    ensures (h + [tx])[..|h|] == h
    ensures SumValues(h + [tx]) == SumValues(h) + tx.value
    ensures forall c :: SeqnsOf(h + [tx], c) == SeqnsOf(h, c) + if tx.source == c then [tx.seqn] else []
    ensures forall c :: Received(h + [tx], c) == Received(h, c) + if tx.dest == c then tx.value else 0
    ensures forall c :: Sent(h + [tx], c) == Sent(h, c) + if tx.source == c then tx.value else 0
  {
    assert (h + [tx])[..|h|] == h;
  }

  // ----- one step, seen from the accounts -----

  ghost function LastReq(l: Ledger, c: Address): int {
    if Has(l.clients, c) then Get(l.clients, c).lastReq else 0
  }

  /** A successful transfer, account by account. */
  lemma TransferView(m: Arithmetic, l: Ledger, r: Request)
    requires StatusOf(m, l, r) == Success
    ensures var l' := TransferEffect(m, l, r);
            && Has(l.clients, r.source) && Has(l.clients, r.dest)
            && (forall a :: Find(l'.clients, a) == Find(l.clients, a))
            && (forall a :: a != r.source && a != r.dest && Has(l.clients, a) ==>
                  Get(l'.clients, a) == Get(l.clients, a))
            && Get(l'.clients, r.source).lastReq == r.seqn == Get(l.clients, r.source).lastReq + 1
            && (r.source != r.dest ==>
                  Get(l'.clients, r.dest).lastReq == Get(l.clients, r.dest).lastReq)
            && (Unique(l.clients) ==> Unique(l'.clients))
  {
  }

  /** What a transfer between two accounts leaves on them. */
  lemma TransferBalances(m: Arithmetic, l: Ledger, r: Request)
    requires StatusOf(m, l, r) == Success && r.source != r.dest
    ensures var cs, cs' := l.clients, TransferEffect(m, l, r).clients;
            && Has(cs', r.source) && Get(cs', r.source).balance == m.Debit(Get(cs, r.source).balance, r.value)
            && Has(cs', r.dest) && Get(cs', r.dest).balance == m.Credit(Get(cs, r.dest).balance, r.value)
  {
    var cs, s, d := l.clients, Find(l.clients, r.source), Find(l.clients, r.dest);
    var debited := m.Debit(cs[s].balance, r.value);
    var credited := m.Credit(SetBalance(cs, s, debited)[d].balance, r.value);
    assert TransferEffect(m, l, r).clients == Write(cs, s, d, debited, credited, r.seqn);
  }

  /** No operation removes an account or lowers a request counter; a transfer raises the source's by one. */
  lemma StepRaisesCounters(m: Arithmetic, l: Ledger, op: Op, c: Address)
    ensures var l' := Step(m, l, op);
            && (Has(l.clients, c) ==> Has(l'.clients, c))
            && (Has(l'.clients, c) ==> Has(l.clients, c) || op == Join(c))
            && LastReq(l', c) == LastReq(l, c)
                 + if op.Transfer? && op.request.source == c && StatusOf(m, l, op.request) == Success then 1 else 0
  {
    match op
    case Transfer(r) =>
      if StatusOf(m, l, r) == Success {
        TransferView(m, l, r);
        assert Find(TransferEffect(m, l, r).clients, c) == Find(l.clients, c);
      }
    case Join(a) =>
      FindAfterAppend(l.clients, NewAccount(a));
  }

  lemma TotalAfterWrite(cs: seq<Account>, s: nat, d: nat, sourceBalance: int, destBalance: int, seqn: int)
    requires s < |cs| && d < |cs|
    ensures var cs' := Write(cs, s, d, sourceBalance, destBalance, seqn);
            && Total(cs', LastReqOf) == Total(cs, LastReqOf) - cs[s].lastReq + seqn
            && Total(cs', BalanceOf) == Total(cs, BalanceOf) - cs[s].balance + sourceBalance
                                        - SetBalance(cs, s, sourceBalance)[d].balance + destBalance
  {
    var debited := SetBalance(cs, s, sourceBalance);
    var credited := SetBalance(debited, d, destBalance);
    TotalAfterUpdate(cs, s, debited[s], LastReqOf);
    TotalAfterUpdate(debited, d, credited[d], LastReqOf);
    TotalAfterUpdate(credited, s, credited[s].(lastReq := seqn), LastReqOf);
    TotalAfterUpdate(cs, s, debited[s], BalanceOf);
    TotalAfterUpdate(debited, d, credited[d], BalanceOf);
    TotalAfterUpdate(credited, s, credited[s].(lastReq := seqn), BalanceOf);
  }

  /**
   A transfer raises the sum of last requests by one; the sum of balances moves
   by what the debit and the credit were off, in exact arithmetic not at all.
   */
  lemma WriteTotals(m: Arithmetic, l: Ledger, r: Request)
    requires StatusOf(m, l, r) == Success
    ensures var cs' := TransferEffect(m, l, r).clients;
            var s, d := Get(l.clients, r.source).balance, Get(l.clients, r.dest).balance;
            && Total(cs', LastReqOf) == Total(l.clients, LastReqOf) + 1
            && Total(cs', BalanceOf) - Total(l.clients, BalanceOf)
               == (if r.source == r.dest then m.Credit(m.Debit(s, r.value), r.value) - s
                   else (m.Debit(s, r.value) - s) + (m.Credit(d, r.value) - d))
            && (m == Exact ==> Total(cs', BalanceOf) == Total(l.clients, BalanceOf))
  {
    var cs, s, d := l.clients, Find(l.clients, r.source), Find(l.clients, r.dest);
    var debited := m.Debit(cs[s].balance, r.value);
    TotalAfterWrite(cs, s, d, debited, m.Credit(SetBalance(cs, s, debited)[d].balance, r.value), r.seqn);
  }

  /** What the answer to a request says about the request and the books. */
  lemma ReplyTellsTheTruth(m: Arithmetic, l: Ledger, r: Request)
    ensures var reply, l' := ReplyOf(m, l, r), TransferEffect(m, l, r);
            && (reply.status == Success <==> l'.history == l.history + [Transaction(l.numTransactions + 1, r.source, r.dest, r.value, r.seqn)])
            && (reply.status != Success <==> l' == l)
            && (reply.status == ClientNotFound <==> !Has(l.clients, r.source) || !Has(l.clients, r.dest))
            && (reply.status == Success ==> reply.lastReq == r.seqn)
            && (reply.status == Duplicate ==> r.seqn <= reply.lastReq)
            && (reply.status == OutOfSequence ==> r.seqn > reply.lastReq + 1)
            && (reply.status == InsufficientFunds ==> r.seqn == reply.lastReq + 1 && m.Short(reply.balance, r.value))
            && (Has(l.clients, r.source) && Has(l.clients, r.dest) && r.seqn == LastReq(l, r.source) + 1 ==>
                  var balance := Get(l.clients, r.source).balance;
                  m == Exact || Abs(balance) < PRECISION ==>
                    && (reply.status == InsufficientFunds <==> balance < r.value)
                    && (reply.status == Success <==> r.value <= balance))
            && (Has(l.clients, r.source) ==> reply.lastReq == LastReq(l', r.source))
            && (!Has(l.clients, r.source) ==> reply.balance == -1 && reply.lastReq == 0)
            && (Has(l.clients, r.source) && reply.status != Success ==>
                  reply.balance == Get(l.clients, r.source).balance)
            && (reply.status == Success ==>
                  var left := m.Debit(Get(l.clients, r.source).balance, r.value);
                  reply.balance == if r.source == r.dest then m.Credit(left, r.value) else left)
  {
    if Has(l.clients, r.source) {
      ShortExactly(Get(l.clients, r.source).balance, r.value);
    }
    if StatusOf(m, l, r) == Success {
      TransferView(m, l, r);
      assert TransferEffect(m, l, r).numTransactions == l.numTransactions + 1;
    } else {
      assert |l.history| != |l.history + [Transaction(l.numTransactions + 1, r.source, r.dest, r.value, r.seqn)]|;
    }
  }

  // ----- bookkeeping, under any requests and packets whatever -----

  ghost predicate Bookkept(l: Ledger) {
    && Unique(l.clients)
    && l.numTransactions == |l.history|
    && l.totalTransferred == SumValues(l.history)
  }

  lemma StepKeepsBookkeeping(m: Arithmetic, l: Ledger, op: Op)
    requires Bookkept(l)
    ensures Bookkept(Step(m, l, op))
  {
    match op
    case Transfer(r) =>
      if StatusOf(m, l, r) == Success {
        TransferView(m, l, r);
        HistoryGrows(l.history, Transaction(l.numTransactions + 1, r.source, r.dest, r.value, r.seqn));
      }
    case Join(a) =>
      FindAfterAppend(l.clients, NewAccount(a));
  }

  lemma EnsureView(cs: seq<Account>, a: Address)
    ensures var cs' := Ensure(cs, a);
            && (forall b :: Has(cs', b) <==> Has(cs, b) || b == a)
            && (forall b :: Has(cs, b) ==> Find(cs', b) == Find(cs, b) && Get(cs', b) == Get(cs, b))
            && (!Has(cs, a) ==> Get(cs', a) == NewAccount(a))
            && (Unique(cs) ==> Unique(cs'))
  {
    FindAfterAppend(cs, NewAccount(a));
  }

  /** A STATE_UPDATE, account by account. */
  lemma OverwriteView(cs: seq<Account>, p: Packet)
    requires p.StateUpdate?
    ensures var cs' := Overwrite(cs, p);
            && (forall a :: Has(cs', a) <==> Has(cs, a) || a == p.source || a == p.dest)
            && (forall a :: Has(cs, a) && a != p.source && a != p.dest ==> Get(cs', a) == Get(cs, a))
            && Get(cs', p.dest).balance == p.destBalance
            && (p.source != p.dest ==> Get(cs', p.source).balance == p.sourceBalance)
            && (p.source != p.dest ==>
                  Get(cs', p.dest).lastReq == if Has(cs, p.dest) then Get(cs, p.dest).lastReq else 0)
            && Get(cs', p.source).lastReq == p.tx.seqn
            && (Unique(cs) ==> Unique(cs'))
  {
    var withSource := Ensure(cs, p.source);
    var withBoth := Ensure(withSource, p.dest);
    EnsureView(cs, p.source);
    EnsureView(withSource, p.dest);
    assert forall a :: Find(Overwrite(cs, p), a) == Find(withBoth, a);
    assert Find(withBoth, p.source) == Find(withSource, p.source);
  }

  lemma ReceiveKeepsBookkeeping(m: Arithmetic, l: Ledger, p: Packet)
    requires Bookkept(l)
    ensures Bookkept(Receive(m, l, p))
  {
    match p
    case ClientUpdate(a, balance, lastReq) => FindAfterAppend(l.clients, Account(a, lastReq, balance));
    case HistoryEntry(tx) => HistoryGrows(l.history, tx);
    case StateUpdate(tx, _, _, _, _) =>
      HistoryGrows(l.history, tx);
      OverwriteView(l.clients, p);
  }

  // ----- the exactly-once log -----

  /**
   Each client's entries carry the numbers 1, 2, ..., last request, in order;
   entries are numbered consecutively; and their number is the sum of all
   last requests.
   */
  ghost predicate ExactlyOnce(l: Ledger) {
    && Bookkept(l)
    && (forall c :: LastReq(l, c) >= 0 && SeqnsOf(l.history, c) == Upto(LastReq(l, c)))
    && (forall i :: 0 <= i < |l.history| ==> l.history[i].id == i + 1)
    && l.numTransactions == Total(l.clients, LastReqOf)
  }

  lemma StepKeepsSeqns(m: Arithmetic, l: Ledger, r: Request, c: Address)
    requires StatusOf(m, l, r) == Success
    requires LastReq(l, c) >= 0 && SeqnsOf(l.history, c) == Upto(LastReq(l, c))
    ensures var l' := TransferEffect(m, l, r);
            LastReq(l', c) >= 0 && SeqnsOf(l'.history, c) == Upto(LastReq(l', c))
  {
    TransferView(m, l, r);
    HistoryGrows(l.history, Transaction(l.numTransactions + 1, r.source, r.dest, r.value, r.seqn));
    assert Find(TransferEffect(m, l, r).clients, c) == Find(l.clients, c);
  }

  lemma TransferKeepsExactlyOnce(m: Arithmetic, l: Ledger, r: Request)
    requires ExactlyOnce(l) && StatusOf(m, l, r) == Success
    ensures ExactlyOnce(TransferEffect(m, l, r))
  {
    StepKeepsBookkeeping(m, l, Transfer(r));
    var l' := TransferEffect(m, l, r);
    forall c ensures LastReq(l', c) >= 0 && SeqnsOf(l'.history, c) == Upto(LastReq(l', c)) {
      StepKeepsSeqns(m, l, r, c);
    }
    WriteTotals(m, l, r);
  }

  lemma JoinKeepsExactlyOnce(m: Arithmetic, l: Ledger, a: Address)
    requires ExactlyOnce(l) && !Has(l.clients, a)
    ensures ExactlyOnce(JoinEffect(m, l, a))
  {
    StepKeepsBookkeeping(m, l, Join(a));
    FindAfterAppend(l.clients, NewAccount(a));
    TotalAfterAppend(l.clients, NewAccount(a), LastReqOf);
    forall c ensures LastReq(JoinEffect(m, l, a), c) == LastReq(l, c) {
    }
  }

  lemma StepKeepsExactlyOnce(m: Arithmetic, l: Ledger, op: Op)
    requires ExactlyOnce(l)
    ensures ExactlyOnce(Step(m, l, op))
  {
    if op.Transfer? && StatusOf(m, l, op.request) == Success {
      TransferKeepsExactlyOnce(m, l, op.request);
    } else if op.Join? && !Has(l.clients, op.address) {
      JoinKeepsExactlyOnce(m, l, op.address);
    }
  }

  /** No request is applied twice and none is skipped, whatever packets arrive. */
  lemma {:induction false} LogIsExactlyOnce(m: Arithmetic, l: Ledger, ops: seq<Op>)
    requires ExactlyOnce(l)
    ensures ExactlyOnce(Run(m, l, ops))
    decreases ops
  {
    if ops != [] {
      StepKeepsExactlyOnce(m, l, ops[0]);
      LogIsExactlyOnce(m, Step(m, l, ops[0]), ops[1..]);
    }
  }

  lemma {:induction false} SeqnsMember(h: seq<Transaction>, i: nat, c: Address)
    requires i < |h| && h[i].source == c
    ensures |SeqnsOf(h[..i], c)| < |SeqnsOf(h, c)|
    ensures SeqnsOf(h, c)[|SeqnsOf(h[..i], c)|] == h[i].seqn
    decreases |h|
  {
    var n := |h| - 1;
    if i < n {
      SeqnsMember(h[..n], i, c);
      assert h[..n][..i] == h[..i];
    }
  }

  lemma {:induction false} SeqnsMonotone(h: seq<Transaction>, i: nat, c: Address)
    requires i <= |h|
    ensures |SeqnsOf(h[..i], c)| <= |SeqnsOf(h, c)|
    decreases |h|
  {
    var n := |h| - 1;
    if i == |h| {
      assert h[..i] == h;
    } else {
      SeqnsMonotone(h[..n], i, c);
      assert h[..n][..i] == h[..i];
    }
  }

  /** In an exactly-once log (source, sequence number) identifies an entry. */
  lemma NoRequestTwice(l: Ledger, i: nat, j: nat)
    requires ExactlyOnce(l) && i < j < |l.history|
    ensures l.history[i].source != l.history[j].source || l.history[i].seqn < l.history[j].seqn
  {
    var h, c := l.history, l.history[i].source;
    if h[j].source == c {
      SeqnsMember(h, i, c);
      SeqnsMember(h, j, c);
      SeqnsMember(h[..j], i, c);
      assert h[..j][..i] == h[..i];
    }
  }

  lemma {:induction false} SeqnIsLogged(h: seq<Transaction>, c: Address, k: nat)
    requires k < |SeqnsOf(h, c)|
    ensures exists i :: 0 <= i < |h| && h[i].source == c && h[i].seqn == SeqnsOf(h, c)[k]
  {
    var n := |h| - 1;
    if k < |SeqnsOf(h[..n], c)| {
      SeqnIsLogged(h[..n], c, k);
      var i :| 0 <= i < |h[..n]| && h[..n][i].source == c && h[..n][i].seqn == SeqnsOf(h[..n], c)[k];
      assert h[i] == h[..n][i];
    } else {
      assert h[n].source == c;
    }
  }

  /** The log holds an entry of c under this number. */
  ghost predicate InLog(h: seq<Transaction>, c: Address, seqn: int) {
    exists i :: 0 <= i < |h| && h[i].source == c && h[i].seqn == seqn
  }

  /** In an exactly-once log the entries of c are numbered 1 to its last request. */
  lemma LoggedUpToLastReq(l: Ledger, c: Address, seqn: int)
    requires ExactlyOnce(l)
    ensures InLog(l.history, c, seqn) <==> 1 <= seqn <= LastReq(l, c)
  {
    var seqns := SeqnsOf(l.history, c);
    assert seqns == Upto(LastReq(l, c));
    if 1 <= seqn <= LastReq(l, c) {
      SeqnIsLogged(l.history, c, seqn - 1);
    }
    if InLog(l.history, c, seqn) {
      var i :| 0 <= i < |l.history| && l.history[i].source == c && l.history[i].seqn == seqn;
      SeqnsMember(l.history, i, c);
    }
  }

  // ----- log replay, conservation and bounds, in exact arithmetic -----

  ghost predicate ReplayedAt(l: Ledger, c: Address) {
    && (Has(l.clients, c) ==>
          Get(l.clients, c).balance == INITIAL_BALANCE + Received(l.history, c) - Sent(l.history, c))
    && (!Has(l.clients, c) ==> Received(l.history, c) == 0 == Sent(l.history, c))
  }

  /** Every balance is the initial one plus what was received minus what was sent. */
  ghost predicate Replayed(l: Ledger) {
    forall c :: ReplayedAt(l, c)
  }

  /** No money is created or lost. */
  ghost predicate Conserved(l: Ledger) {
    Total(l.clients, BalanceOf) == l.totalBalance == INITIAL_BALANCE * |l.clients|
  }

  lemma TransferReplays(l: Ledger, r: Request, c: Address)
    requires StatusOf(Exact, l, r) == Success && ReplayedAt(l, c)
    ensures ReplayedAt(TransferEffect(Exact, l, r), c)
  {
    TransferView(Exact, l, r);
    HistoryGrows(l.history, Transaction(l.numTransactions + 1, r.source, r.dest, r.value, r.seqn));
    assert Find(TransferEffect(Exact, l, r).clients, c) == Find(l.clients, c);
  }

  lemma JoinReplays(m: Arithmetic, l: Ledger, a: Address, c: Address)
    requires ReplayedAt(l, a) && ReplayedAt(l, c)
    ensures ReplayedAt(JoinEffect(m, l, a), c)
  {
    FindAfterAppend(l.clients, NewAccount(a));
  }

  lemma StepReplays(l: Ledger, op: Op)
    requires Replayed(l)
    ensures Replayed(Step(Exact, l, op))
  {
    forall c ensures ReplayedAt(Step(Exact, l, op), c) {
      assert ReplayedAt(l, c);
      if op.Join? {
        assert ReplayedAt(l, op.address);
        JoinReplays(Exact, l, op.address, c);
      } else if StatusOf(Exact, l, op.request) == Success {
        TransferReplays(l, op.request, c);
      }
    }
  }

  lemma StepConserves(l: Ledger, op: Op)
    requires Conserved(l)
    ensures Conserved(Step(Exact, l, op))
  {
    match op
    case Transfer(r) =>
      if StatusOf(Exact, l, r) == Success {
        WriteTotals(Exact, l, r);
      }
    case Join(a) =>
      TotalAfterAppend(l.clients, NewAccount(a), BalanceOf);
  }

  lemma {:induction false} RunConserves(l: Ledger, ops: seq<Op>)
    requires Conserved(l)
    ensures Conserved(Run(Exact, l, ops))
    decreases ops
  {
    if ops != [] {
      StepConserves(l, ops[0]);
      RunConserves(Step(Exact, l, ops[0]), ops[1..]);
    }
  }

  /** Conservation needs no assumption on the sign of the values. */
  lemma {:induction false} MoneyIsConserved(l: Ledger, ops: seq<Op>)
    requires Replayed(l) && Conserved(l)
    ensures Replayed(Run(Exact, l, ops)) && Conserved(Run(Exact, l, ops))
    decreases ops
  {
    RunConserves(l, ops);
    if ops != [] {
      StepReplays(l, ops[0]);
      StepConserves(l, ops[0]);
      MoneyIsConserved(Step(Exact, l, ops[0]), ops[1..]);
    }
  }

  ghost predicate NonNegative(op: Op) {
    op.Transfer? ==> op.request.value >= 0
  }

  ghost predicate Bounded(l: Ledger) {
    forall i :: 0 <= i < |l.clients| ==> 0 <= l.clients[i].balance <= l.totalBalance
  }

  lemma BoundedByTotal(l: Ledger)
    requires Conserved(l) && forall i :: 0 <= i < |l.clients| ==> l.clients[i].balance >= 0
    ensures Bounded(l)
  {
    forall i | 0 <= i < |l.clients| ensures l.clients[i].balance <= l.totalBalance {
      TotalBoundsEach(l.clients, i);
    }
  }

  lemma StepKeepsBounds(l: Ledger, op: Op)
    requires Conserved(l) && Bounded(l) && NonNegative(op)
    ensures Bounded(Step(Exact, l, op))
  {
    StepConserves(l, op);
    BoundedByTotal(Step(Exact, l, op));
  }

  /** With non-negative values no balance is ever negative or above the total. */
  lemma {:induction false} BalancesStayBounded(l: Ledger, ops: seq<Op>)
    requires Conserved(l) && Bounded(l)
    requires forall op :: op in ops ==> NonNegative(op)
    ensures Bounded(Run(Exact, l, ops))
    decreases ops
  {
    if ops != [] {
      StepKeepsBounds(l, ops[0]);
      StepConserves(l, ops[0]);
      BalancesStayBounded(Step(Exact, l, ops[0]), ops[1..]);
    }
  }

  // ----- binary32 against integers -----

  /** 16777 clients own less than 2^24 together. */
  const MAX_CLIENTS: nat := 16777

  lemma {:induction false} RunOnlyAddsClients(m: Arithmetic, l: Ledger, ops: seq<Op>)
    ensures |l.clients| <= |Run(m, l, ops).clients|
    decreases ops
  {
    if ops != [] {
      RunOnlyAddsClients(m, Step(m, l, ops[0]), ops[1..]);
    }
  }

  lemma ExecuteSingleIsExact(cs: seq<Account>, s: nat, d: nat, value: int, seqn: int, total: int)
    requires s < |cs| && d < |cs| && total < PRECISION
    requires 0 <= value <= cs[s].balance
    requires forall i :: 0 <= i < |cs| ==> 0 <= cs[i].balance <= total
    requires var cs' := Execute(Exact, cs, s, d, value, seqn);
             forall i :: 0 <= i < |cs| ==> 0 <= cs'[i].balance <= total
    ensures Execute(Single, cs, s, d, value, seqn) == Execute(Exact, cs, s, d, value, seqn)
  {
    SingleIsExact(cs[s].balance, value);
    var debited := SetBalance(cs, s, cs[s].balance - value);
    assert Execute(Exact, cs, s, d, value, seqn)[d].balance == debited[d].balance + value;
    SingleIsExact(debited[d].balance, value);
  }

  lemma StepSingleIsExact(l: Ledger, op: Op)
    requires Conserved(l) && Bounded(l) && NonNegative(op)
    requires |Step(Exact, l, op).clients| <= MAX_CLIENTS
    ensures Step(Single, l, op) == Step(Exact, l, op)
    ensures Emit(Single, l, op) == Emit(Exact, l, op)
    ensures op.Transfer? ==> ReplyOf(Single, l, op.request) == ReplyOf(Exact, l, op.request)
  {
    match op
    case Transfer(r) =>
      var cs, s, d := l.clients, Find(l.clients, r.source), Find(l.clients, r.dest);
      if s < |cs| && d < |cs| {
        SingleIsExact(cs[s].balance, r.value);
        assert StatusOf(Single, l, r) == StatusOf(Exact, l, r);
        if StatusOf(Exact, l, r) == Success {
          StepKeepsBounds(l, op);
          ExecuteSingleIsExact(cs, s, d, r.value, r.seqn, l.totalBalance);
        }
      }
    case Join(a) =>
      SingleIsExact(INITIAL_BALANCE, l.totalBalance);
  }

  /**
   With non-negative values and at most 16777 clients, no rounding ever shows:
   the program's float ledger and the integer ledger go through the same states
   and send the same packets.
   */
  lemma {:induction false} FloatRefinesInteger(l: Ledger, ops: seq<Op>)
    requires Conserved(l) && Bounded(l)
    requires forall op :: op in ops ==> NonNegative(op)
    requires |Run(Exact, l, ops).clients| <= MAX_CLIENTS
    ensures Run(Single, l, ops) == Run(Exact, l, ops)
    ensures EmitAll(Single, l, ops) == EmitAll(Exact, l, ops)
    decreases ops
  {
    if ops != [] {
      var l' := Step(Exact, l, ops[0]);
      RunOnlyAddsClients(Exact, l', ops[1..]);
      StepSingleIsExact(l, ops[0]);
      StepKeepsBounds(l, ops[0]);
      StepConserves(l, ops[0]);
      FloatRefinesInteger(l', ops[1..]);
    }
  }

  /** A primary started fresh. */
  lemma EmptyIsSound()
    ensures ExactlyOnce(EMPTY) && Replayed(EMPTY) && Conserved(EMPTY) && Bounded(EMPTY)
  {
    assert forall c :: LastReq(EMPTY, c) == 0 && SeqnsOf([], c) == Upto(0);
  }

  // ----- runs -----

  lemma {:induction false} RunConcat(m: Arithmetic, l: Ledger, xs: seq<Op>, ys: seq<Op>)
    ensures Run(m, l, xs + ys) == Run(m, Run(m, l, xs), ys)
    decreases xs
  {
    if xs == [] {
      assert xs + ys == ys;
    } else {
      assert (xs + ys)[1..] == xs[1..] + ys;
      RunConcat(m, Step(m, l, xs[0]), xs[1..], ys);
    }
  }

  lemma {:induction false} EmitConcat(m: Arithmetic, l: Ledger, xs: seq<Op>, ys: seq<Op>)
    ensures EmitAll(m, l, xs + ys) == EmitAll(m, l, xs) + EmitAll(m, Run(m, l, xs), ys)
    decreases xs
  {
    if xs == [] {
      assert xs + ys == ys;
    } else {
      assert (xs + ys)[1..] == xs[1..] + ys;
      EmitConcat(m, Step(m, l, xs[0]), xs[1..], ys);
    }
  }

  lemma RunSnoc(m: Arithmetic, l: Ledger, ops: seq<Op>, op: Op)
    ensures Run(m, l, ops + [op]) == Step(m, Run(m, l, ops), op)
    ensures EmitAll(m, l, ops + [op]) == EmitAll(m, l, ops) + Emit(m, Run(m, l, ops), op)
  {
    RunConcat(m, l, ops, [op]);
    EmitConcat(m, l, ops, [op]);
    assert [op][1..] == [];
  }

  /** The transactions the packets announce, in the order they are sent. */
  ghost function Announced(ps: seq<Packet>): seq<Transaction> {
    if ps == [] then []
    else if ps[0].StateUpdate? then [ps[0].tx] + Announced(ps[1..])
    else Announced(ps[1..])
  }

  lemma {:induction false} AnnouncedConcat(xs: seq<Packet>, ys: seq<Packet>)
    ensures Announced(xs + ys) == Announced(xs) + Announced(ys)
    decreases xs
  {
    if xs == [] {
      assert xs + ys == ys;
    } else {
      assert (xs + ys)[1..] == xs[1..] + ys;
      AnnouncedConcat(xs[1..], ys);
    }
  }

  /** What is sent for one operation, and what each field says: the books after it. */
  lemma EmissionTellsTheBooks(m: Arithmetic, l: Ledger, op: Op)
    ensures Emit(m, l, op) == [] <==> Step(m, l, op) == l
    ensures op.Join? && !Has(l.clients, op.address) ==> Emit(m, l, op) == [ClientUpdate(op.address, 1000, 0)]
    ensures op.Transfer? && Emit(m, l, op) != [] ==>
              var r, l' := op.request, Step(m, l, op);
              && Emit(m, l, op) == [StateUpdate(l'.history[|l'.history| - 1],
                                                r.source, Get(l'.clients, r.source).balance,
                                                r.dest, Get(l'.clients, r.dest).balance)]
              && RequestOf(l'.history[|l'.history| - 1]) == r
  {
    if op.Transfer? {
      ReplyTellsTheTruth(m, l, op.request);
    }
  }

  function RequestOf(tx: Transaction): Request {
    Request(tx.source, tx.dest, tx.value, tx.seqn)
  }

  lemma StepAnnounces(m: Arithmetic, l: Ledger, op: Op)
    ensures Step(m, l, op).history == l.history + Announced(Emit(m, l, op))
  {
    var ps := Emit(m, l, op);
    if ps == [] {
      assert Step(m, l, op).history == l.history;
    } else {
      assert ps[1..] == [];
      assert Announced(ps) == if ps[0].StateUpdate? then [ps[0].tx] else [];
    }
  }

  /** Updates are sent in history order, one for each new entry. */
  lemma {:induction false} UpdatesFollowHistory(m: Arithmetic, l: Ledger, ops: seq<Op>)
    ensures Run(m, l, ops).history == l.history + Announced(EmitAll(m, l, ops))
    decreases ops
  {
    if ops != [] {
      var l' := Step(m, l, ops[0]);
      StepAnnounces(m, l, ops[0]);
      UpdatesFollowHistory(m, l', ops[1..]);
      AnnouncedConcat(Emit(m, l, ops[0]), EmitAll(m, l', ops[1..]));
    }
  }

  /** Every run of a primary started fresh, in the program's own arithmetic. */
  lemma FreshPrimary(ops: seq<Op>)
    ensures ExactlyOnce(Run(Single, EMPTY, ops))
    ensures (forall op :: op in ops ==> NonNegative(op)) && |Run(Exact, EMPTY, ops).clients| <= MAX_CLIENTS ==>
              var l := Run(Single, EMPTY, ops);
              l == Run(Exact, EMPTY, ops) && Replayed(l) && Conserved(l) && Bounded(l)
  {
    EmptyIsSound();
    LogIsExactlyOnce(Single, EMPTY, ops);
    if (forall op :: op in ops ==> NonNegative(op)) && |Run(Exact, EMPTY, ops).clients| <= MAX_CLIENTS {
      FloatRefinesInteger(EMPTY, ops);
      MoneyIsConserved(EMPTY, ops);
      BalancesStayBounded(EMPTY, ops);
    }
  }
}
