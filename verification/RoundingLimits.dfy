/**
 Where binary32 shows. The wire allows negative values, and with them a balance
 can leave the range in which whole numbers are exact. For every accepted
 transfer, whatever its value, this module says exactly when the program's books
 still replay the log, conserve the money and stay within bounds, and lifts each
 condition to runs.
 */
module RoundingLimits {
  import opened Binary32
  import opened LedgerModel
  import opened LedgerTheorems

  // ----- one transfer -----

  /** The rounding errors of debit and credit cancel; v is the value as a float. */
  predicate ErrorsCancel(l: Ledger, r: Request)
    requires Has(l.clients, r.source) && Has(l.clients, r.dest)
  {
    var v, s, d := Round(r.value), Get(l.clients, r.source).balance, Get(l.clients, r.dest).balance;
    if r.source == r.dest then Round(Round(s - v) + v) == s
    else Round(s - v) - (s - v) == (d + v) - Round(d + v)
  }

  /** Debit and credit are each without error. */
  predicate NoError(l: Ledger, r: Request)
    requires Has(l.clients, r.source) && Has(l.clients, r.dest)
  {
    var v, s, d := Round(r.value), Get(l.clients, r.source).balance, Get(l.clients, r.dest).balance;
    if r.source == r.dest then Round(Round(s - v) + v) == s
    else Round(s - v) == s - r.value && Round(d + v) == d + r.value
  }

  /** A sum moves by what debit and credit are off, so it stays just when their errors cancel. */
  lemma OffByErrors(l: Ledger, r: Request, change: int)
    requires Has(l.clients, r.source) && Has(l.clients, r.dest)
    requires var s, d := Get(l.clients, r.source).balance, Get(l.clients, r.dest).balance;
             change == if r.source == r.dest then Single.Credit(Single.Debit(s, r.value), r.value) - s
                       else (Single.Debit(s, r.value) - s) + (Single.Credit(d, r.value) - d)
    ensures change == 0 <==> ErrorsCancel(l, r)
  {
  }

  lemma NoErrorCancels(l: Ledger, r: Request)
    requires Has(l.clients, r.source) && Has(l.clients, r.dest) && NoError(l, r)
    ensures ErrorsCancel(l, r)
  {
  }

  /** An accepted transfer keeps the sum of balances exactly when its errors cancel. */
  lemma MoneyKeptExactly(l: Ledger, r: Request)
    requires StatusOf(Single, l, r) == Success
    ensures Total(TransferEffect(Single, l, r).clients, BalanceOf) == Total(l.clients, BalanceOf)
       <==> ErrorsCancel(l, r)
  {
    WriteTotals(Single, l, r);
    OffByErrors(l, r, Total(TransferEffect(Single, l, r).clients, BalanceOf) - Total(l.clients, BalanceOf));
  }

  /** The balance of c after an accepted transfer. */
  function BalanceAfter(l: Ledger, r: Request, c: Address): int
    requires Has(l.clients, r.source) && Has(l.clients, r.dest) && Has(l.clients, c)
  {
    var v, s, d := Round(r.value), Get(l.clients, r.source).balance, Get(l.clients, r.dest).balance;
    if c == r.source && c == r.dest then Round(Round(s - v) + v)
    else if c == r.source then Round(s - v)
    else if c == r.dest then Round(d + v)
    else Get(l.clients, c).balance
  }

  lemma SelfBalance(l: Ledger, r: Request)
    requires StatusOf(Single, l, r) == Success && r.source == r.dest
    ensures var cs' := TransferEffect(Single, l, r).clients;
            && Has(cs', r.source)
            && Get(cs', r.source).balance
               == Single.Credit(Single.Debit(Get(l.clients, r.source).balance, r.value), r.value)
  {
    ReplyTellsTheTruth(Single, l, r);
    TransferView(Single, l, r);
  }

  lemma BalancesAfter(l: Ledger, r: Request, c: Address)
    requires StatusOf(Single, l, r) == Success && Has(l.clients, c)
    ensures var cs' := TransferEffect(Single, l, r).clients;
            Find(cs', c) == Find(l.clients, c) && Get(cs', c).balance == BalanceAfter(l, r, c)
  {
    TransferView(Single, l, r);
    if r.source == r.dest {
      SelfBalance(l, r);
    } else {
      TransferBalances(Single, l, r);
    }
  }

  /** One account still replays the log just when what was written to it is right. */
  lemma AccountReplays(l: Ledger, r: Request, c: Address)
    requires StatusOf(Single, l, r) == Success && ReplayedAt(l, c)
    ensures ReplayedAt(TransferEffect(Single, l, r), c)
       <==> (Has(l.clients, c) ==>
               BalanceAfter(l, r, c) == Get(l.clients, c).balance - (if c == r.source then r.value else 0)
                                                                  + (if c == r.dest then r.value else 0))
  {
    HistoryGrows(l.history, Transaction(l.numTransactions + 1, r.source, r.dest, r.value, r.seqn));
    TransferView(Single, l, r);
    if Has(l.clients, c) {
      BalancesAfter(l, r, c);
    } else {
      assert Find(TransferEffect(Single, l, r).clients, c) == Find(l.clients, c);
    }
  }

  /** From books that replay their log, an accepted transfer leaves such books exactly when it has no error. */
  lemma ReplayKeptExactly(l: Ledger, r: Request)
    requires Replayed(l) && StatusOf(Single, l, r) == Success
    ensures Replayed(TransferEffect(Single, l, r)) <==> NoError(l, r)
  {
    var l' := TransferEffect(Single, l, r);
    assert ReplayedAt(l, r.source) && ReplayedAt(l, r.dest);
    AccountReplays(l, r, r.source);
    AccountReplays(l, r, r.dest);
    if NoError(l, r) {
      forall c ensures ReplayedAt(l', c) {
        assert ReplayedAt(l, c);
        AccountReplays(l, r, c);
      }
    } else {
      assert !ReplayedAt(l', r.source) || !ReplayedAt(l', r.dest);
    }
  }

  // ----- bounds -----

  /**
   The destination can bear the value; for a transfer to oneself the debit is not
   rounded up by more than all others own.
   */
  predicate Bearable(l: Ledger, r: Request)
    requires Has(l.clients, r.source) && Has(l.clients, r.dest)
  {
    var v, s := Round(r.value), Get(l.clients, r.source).balance;
    if r.source == r.dest then Round(s - v) - (s - v) <= l.totalBalance - s
    else Get(l.clients, r.dest).balance + r.value >= 0
  }

  /**
   In ideal arithmetic: from a bounded ledger, an accepted transfer of any sign
   leaves it bounded just when the destination can bear the value.
   */
  lemma IdealBoundsKeptExactly(l: Ledger, r: Request)
    requires Conserved(l) && Bounded(l) && StatusOf(Exact, l, r) == Success
    ensures Bounded(TransferEffect(Exact, l, r))
       <==> (r.source == r.dest || Get(l.clients, r.dest).balance + r.value >= 0)
  {
    StepConserves(l, Transfer(r));
    var l' := TransferEffect(Exact, l, r);
    var d := Find(l.clients, r.dest);
    if r.source == r.dest || l.clients[d].balance + r.value >= 0 {
      BoundedByTotal(l');
    } else {
      assert l'.clients[d].balance < 0;
    }
  }

  /** A bearable value is one the source has and the destination can bear, far below 2^24. */
  lemma BearableIsSmall(balance: int, value: int)
    requires 0 <= balance < PRECISION && !Single.Short(balance, value)
    ensures value <= balance
    ensures value + PRECISION > 0 ==> Round(value) == value
  {
    if value >= PRECISION {
      RoundKeepsLargeLarge(value);
    } else {
      RoundFixesRepresentable(value);
    }
  }

  lemma SameExecution(cs: seq<Account>, s: nat, d: nat, value: int, seqn: int)
    requires s < |cs| && d < |cs| && s != d
    requires Single.Debit(cs[s].balance, value) == cs[s].balance - value
    requires Single.Credit(cs[d].balance, value) == cs[d].balance + value
    ensures Execute(Single, cs, s, d, value, seqn) == Execute(Exact, cs, s, d, value, seqn)
  {
  }

  /** A bearable transfer between two clients never leaves the range without rounding. */
  lemma BearableIsExact(l: Ledger, r: Request)
    requires Conserved(l) && Bounded(l) && |l.clients| <= MAX_CLIENTS
    requires StatusOf(Single, l, r) == Success && r.source != r.dest && Bearable(l, r)
    ensures StatusOf(Exact, l, r) == Success
    ensures TransferEffect(Single, l, r) == TransferEffect(Exact, l, r)
  {
    var cs, s, d := l.clients, Find(l.clients, r.source), Find(l.clients, r.dest);
    BearableIsSmall(cs[s].balance, r.value);
    IdealBoundsKeptExactly(l, r);
    var cs' := TransferEffect(Exact, l, r).clients;
    assert cs'[s].balance == cs[s].balance - r.value && cs'[d].balance == cs[d].balance + r.value;
    RoundFixesRepresentable(cs'[s].balance);
    RoundFixesRepresentable(cs'[d].balance);
    SameExecution(cs, s, d, r.value, r.seqn);
  }

  lemma UnbearableGoesNegative(l: Ledger, r: Request)
    requires Conserved(l) && Bounded(l) && |l.clients| <= MAX_CLIENTS
    requires StatusOf(Single, l, r) == Success && r.source != r.dest && !Bearable(l, r)
    ensures !Bounded(TransferEffect(Single, l, r))
  {
    var d := Find(l.clients, r.dest);
    RoundKeepsSign(r.value);
    RoundFixesRepresentable(r.value);
    RoundKeepsSign(l.clients[d].balance + Round(r.value));
    BalancesAfter(l, r, r.dest);
    assert TransferEffect(Single, l, r).clients[d].balance < 0;
  }

  /**
   Taking v from an account and giving it back: the credit is exact as long as
   the debit's error leaves the balance below 2^24.
   */
  lemma ThereAndBack(s: int, v: int)
    requires 0 <= s < PRECISION && v <= s && Representable(v)
    ensures var e := Round(s - v) - (s - v);
            && s + e >= 0
            && (s + e < PRECISION ==> Round(Round(s - v) + v) == s + e)
            && (s + e >= PRECISION ==> Round(Round(s - v) + v) >= PRECISION)
            && (e == 0 <==> Representable(s - v))
  {
    var e := Round(s - v) - (s - v);
    RoundFixesRepresentable(s - v);
    if v < 0 {
      assert Abs(-v) == Abs(v);
      var k, f :| Scaled(Abs(v), k, f);
      assert Scaled(Abs(-v), k, f);
      RoundAtLeast(s - v, -v);
    }
    RoundFixesRepresentable(s + e);
    if s + e >= PRECISION {
      RoundKeepsLargeLarge(s + e);
    }
  }

  /** An account to itself: what the debit's error decides. */
  lemma SelfTransferExactly(l: Ledger, r: Request)
    requires Conserved(l) && Bounded(l) && |l.clients| <= MAX_CLIENTS
    requires StatusOf(Single, l, r) == Success && r.source == r.dest
    ensures var v, s := Round(r.value), Get(l.clients, r.source).balance;
            && (0 <= BalanceAfter(l, r, r.source) <= l.totalBalance <==> Bearable(l, r))
            && (ErrorsCancel(l, r) <==> Representable(s - v))
  {
    RoundRepresentable(r.value);
    ThereAndBack(Get(l.clients, r.source).balance, Round(r.value));
  }

  lemma SelfBoundsKeptExactly(l: Ledger, r: Request)
    requires Conserved(l) && Bounded(l) && |l.clients| <= MAX_CLIENTS
    requires StatusOf(Single, l, r) == Success && r.source == r.dest
    ensures Bounded(TransferEffect(Single, l, r)) <==> Bearable(l, r)
  {
    var s, l' := Find(l.clients, r.source), TransferEffect(Single, l, r);
    BalancesAfter(l, r, r.source);
    SelfTransferExactly(l, r);
    assert |l'.clients| == |l.clients| && l'.totalBalance == l.totalBalance;
    forall i | 0 <= i < |l.clients| && i != s ensures 0 <= l'.clients[i].balance <= l'.totalBalance {
      assert l'.clients[i] == l.clients[i];
    }
    assert Bounded(l') <==> 0 <= l'.clients[s].balance <= l'.totalBalance;
  }

  /** The program's own bounds: kept exactly by the bearable transfers. */
  lemma BoundsKeptExactly(l: Ledger, r: Request)
    requires Conserved(l) && Bounded(l) && |l.clients| <= MAX_CLIENTS && StatusOf(Single, l, r) == Success
    ensures Bounded(TransferEffect(Single, l, r)) <==> Bearable(l, r)
  {
    if r.source != r.dest {
      if Bearable(l, r) {
        BearableIsExact(l, r);
        IdealBoundsKeptExactly(l, r);
      } else {
        UnbearableGoesNegative(l, r);
      }
    } else {
      SelfBoundsKeptExactly(l, r);
    }
  }

  // ----- runs -----

  /** The books of a run after its first k operations. */
  ghost function At(l: Ledger, ops: seq<Op>, k: nat): Ledger
    requires k <= |ops|
  {
    Run(Single, l, ops[..k])
  }

  lemma AtNext(l: Ledger, ops: seq<Op>, k: nat)
    requires k < |ops|
    ensures At(l, ops, k + 1) == Step(Single, At(l, ops, k), ops[k])
  {
    assert ops[..k + 1] == ops[..k] + [ops[k]];
    RunSnoc(Single, l, ops[..k], ops[k]);
  }

  lemma {:induction false} GuardsSuffice(l: Ledger, ops: seq<Op>, good: Ledger -> bool, guard: (Ledger, Op) -> bool, k: nat)
    requires good(l) && k <= |ops|
    requires forall j | 0 <= j < |ops| ::
               good(At(l, ops, j)) ==> (good(At(l, ops, j + 1)) <==> guard(At(l, ops, j), ops[j]))
    requires forall j | 0 <= j < |ops| :: guard(At(l, ops, j), ops[j])
    ensures good(At(l, ops, k))
  {
    if k > 0 {
      GuardsSuffice(l, ops, good, guard, k - 1);
      assert guard(At(l, ops, k - 1), ops[k - 1]);
    }
  }

  /** A property each step keeps just when a guard holds is kept by a run just when every guard holds. */
  lemma KeptAlongRun(l: Ledger, ops: seq<Op>, good: Ledger -> bool, guard: (Ledger, Op) -> bool)
    requires good(l)
    requires forall j | 0 <= j < |ops| ::
               good(At(l, ops, j)) ==> (good(At(l, ops, j + 1)) <==> guard(At(l, ops, j), ops[j]))
    ensures (forall k | 0 <= k <= |ops| :: good(At(l, ops, k)))
       <==> (forall j | 0 <= j < |ops| :: guard(At(l, ops, j), ops[j]))
  {
    if forall j | 0 <= j < |ops| :: guard(At(l, ops, j), ops[j]) {
      forall k | 0 <= k <= |ops| ensures good(At(l, ops, k)) {
        GuardsSuffice(l, ops, good, guard, k);
      }
    }
    if forall k | 0 <= k <= |ops| :: good(At(l, ops, k)) {
      forall j | 0 <= j < |ops| ensures guard(At(l, ops, j), ops[j]) {
        assert good(At(l, ops, j)) && good(At(l, ops, j + 1));
      }
    }
  }

  predicate ReplayGuard(l: Ledger, op: Op) {
    op.Transfer? && StatusOf(Single, l, op.request) == Success ==> NoError(l, op.request)
  }

  predicate MoneyGuard(l: Ledger, op: Op) {
    match op
    case Transfer(r) => StatusOf(Single, l, r) == Success ==> ErrorsCancel(l, r)
    case Join(a) =>
      Has(l.clients, a) || Round(Round(l.totalBalance) + INITIAL_BALANCE) == l.totalBalance + INITIAL_BALANCE
  }

  /** The destination can bear the value; from an account to itself, the balance debited is a binary32 number. */
  ghost predicate BoundsGuard(l: Ledger, op: Op) {
    op.Transfer? && StatusOf(Single, l, op.request) == Success ==>
      var r := op.request;
      if r.source == r.dest then Representable(Get(l.clients, r.source).balance - Round(r.value))
      else Get(l.clients, r.dest).balance + r.value >= 0
  }

  lemma StepReplaysExactly(l: Ledger, op: Op)
    requires Replayed(l)
    ensures Replayed(Step(Single, l, op)) <==> ReplayGuard(l, op)
  {
    match op
    case Transfer(r) =>
      if StatusOf(Single, l, r) == Success {
        ReplayKeptExactly(l, r);
      }
    case Join(a) =>
      forall c ensures ReplayedAt(Step(Single, l, op), c) {
        assert ReplayedAt(l, a) && ReplayedAt(l, c);
        JoinReplays(Single, l, a, c);
      }
  }

  lemma StepConservesExactly(l: Ledger, op: Op)
    requires Conserved(l)
    ensures Conserved(Step(Single, l, op)) <==> MoneyGuard(l, op)
  {
    match op
    case Transfer(r) =>
      if StatusOf(Single, l, r) == Success {
        MoneyKeptExactly(l, r);
      }
    case Join(a) =>
      TotalAfterAppend(l.clients, NewAccount(a), BalanceOf);
  }

  lemma SelfStepSound(l: Ledger, r: Request)
    requires Conserved(l) && Bounded(l) && |l.clients| <= MAX_CLIENTS
    requires StatusOf(Single, l, r) == Success && r.source == r.dest
    ensures ErrorsCancel(l, r) <==> Representable(Get(l.clients, r.source).balance - Round(r.value))
    ensures ErrorsCancel(l, r) ==> Bearable(l, r)
  {
    SelfTransferExactly(l, r);
    var s := Find(l.clients, r.source);
    assert 0 <= l.clients[s].balance <= l.totalBalance;
  }

  lemma TransferSoundExactly(l: Ledger, r: Request)
    requires Conserved(l) && Bounded(l) && |l.clients| <= MAX_CLIENTS && StatusOf(Single, l, r) == Success
    ensures Conserved(TransferEffect(Single, l, r)) && Bounded(TransferEffect(Single, l, r)) <==> BoundsGuard(l, Transfer(r))
  {
    BoundsKeptExactly(l, r);
    if r.source == r.dest {
      StepConservesExactly(l, Transfer(r));
      SelfStepSound(l, r);
    } else if Bearable(l, r) {
      BearableIsExact(l, r);
      StepConserves(l, Transfer(r));
    }
  }

  lemma StepSoundExactly(l: Ledger, op: Op)
    requires Conserved(l) && Bounded(l) && |Step(Single, l, op).clients| <= MAX_CLIENTS
    ensures Conserved(Step(Single, l, op)) && Bounded(Step(Single, l, op)) <==> BoundsGuard(l, op)
  {
    match op
    case Transfer(r) =>
      if StatusOf(Single, l, r) == Success {
        TransferSoundExactly(l, r);
      }
    case Join(a) =>
      SingleIsExact(INITIAL_BALANCE, l.totalBalance);
      StepKeepsBounds(l, op);
      StepConserves(l, op);
  }

  /** For values of any sign and size: the float books replay their log throughout a run exactly when no transfer in it errs. */
  lemma RunReplaysExactly(l: Ledger, ops: seq<Op>)
    requires Replayed(l)
    ensures (forall k | 0 <= k <= |ops| :: Replayed(At(l, ops, k)))
       <==> (forall j | 0 <= j < |ops| :: ReplayGuard(At(l, ops, j), ops[j]))
  {
    forall j | 0 <= j < |ops| && Replayed(At(l, ops, j))
      ensures Replayed(At(l, ops, j + 1)) <==> ReplayGuard(At(l, ops, j), ops[j])
    {
      AtNext(l, ops, j);
      StepReplaysExactly(At(l, ops, j), ops[j]);
    }
    KeptAlongRun(l, ops, Replayed, ReplayGuard);
  }

  /** They conserve the money throughout exactly when all errors cancel and every new client's 1000 is added exactly. */
  lemma RunConservesExactly(l: Ledger, ops: seq<Op>)
    requires Conserved(l)
    ensures (forall k | 0 <= k <= |ops| :: Conserved(At(l, ops, k)))
       <==> (forall j | 0 <= j < |ops| :: MoneyGuard(At(l, ops, j), ops[j]))
  {
    forall j | 0 <= j < |ops| && Conserved(At(l, ops, j))
      ensures Conserved(At(l, ops, j + 1)) <==> MoneyGuard(At(l, ops, j), ops[j])
    {
      AtNext(l, ops, j);
      StepConservesExactly(At(l, ops, j), ops[j]);
    }
    KeptAlongRun(l, ops, Conserved, MoneyGuard);
  }

  /** Books that replay throughout a run keep their money throughout, whatever the total field says. */
  lemma {:induction false} ReplayedRunKeepsMoney(l: Ledger, ops: seq<Op>, k: nat)
    requires k <= |ops| && forall j | 0 <= j <= |ops| :: Replayed(At(l, ops, j))
    ensures Total(At(l, ops, k).clients, BalanceOf) - INITIAL_BALANCE * |At(l, ops, k).clients|
         == Total(l.clients, BalanceOf) - INITIAL_BALANCE * |l.clients|
  {
    if k == 0 {
      assert ops[..0] == [];
    } else {
      ReplayedRunKeepsMoney(l, ops, k - 1);
      AtNext(l, ops, k - 1);
      assert Replayed(At(l, ops, k - 1)) && Replayed(At(l, ops, k));
      ReplayedStepKeepsMoney(At(l, ops, k - 1), ops[k - 1]);
    }
  }

  lemma ReplayedStepKeepsMoney(l: Ledger, op: Op)
    requires Replayed(l) && Replayed(Step(Single, l, op))
    ensures var l' := Step(Single, l, op);
            Total(l'.clients, BalanceOf) - INITIAL_BALANCE * |l'.clients|
            == Total(l.clients, BalanceOf) - INITIAL_BALANCE * |l.clients|
  {
    match op
    case Transfer(r) =>
      if StatusOf(Single, l, r) == Success {
        ReplayKeptExactly(l, r);
        NoErrorCancels(l, r);
        MoneyKeptExactly(l, r);
      }
    case Join(a) =>
      TotalAfterAppend(l.clients, NewAccount(a), BalanceOf);
  }

  ghost predicate ConservedAndBounded(l: Ledger) {
    Conserved(l) && Bounded(l)
  }

  lemma NeverMoreClients(l: Ledger, ops: seq<Op>, k: nat)
    requires k <= |ops|
    ensures |At(l, ops, k).clients| <= |Run(Single, l, ops).clients|
  {
    assert ops == ops[..k] + ops[k..];
    RunConcat(Single, l, ops[..k], ops[k..]);
    RunOnlyAddsClients(Single, At(l, ops, k), ops[k..]);
  }

  /** With at most 16777 clients they stay conserved and bounded throughout exactly when every destination can bear its value and every self-transfer is exact. */
  lemma RunStaysBoundedExactly(l: Ledger, ops: seq<Op>)
    requires ConservedAndBounded(l) && |Run(Single, l, ops).clients| <= MAX_CLIENTS
    ensures (forall k | 0 <= k <= |ops| :: ConservedAndBounded(At(l, ops, k)))
       <==> (forall j | 0 <= j < |ops| :: BoundsGuard(At(l, ops, j), ops[j]))
  {
    forall j | 0 <= j < |ops| && ConservedAndBounded(At(l, ops, j))
      ensures ConservedAndBounded(At(l, ops, j + 1)) <==> BoundsGuard(At(l, ops, j), ops[j])
    {
      AtNext(l, ops, j);
      NeverMoreClients(l, ops, j + 1);
      StepSoundExactly(At(l, ops, j), ops[j]);
    }
    KeptAlongRun(l, ops, ConservedAndBounded, BoundsGuard);
  }

  // ----- inputs for which they fail -----

  const TWO_CLIENTS: Ledger := Ledger([NewAccount(1), NewAccount(2)], [], 0, 0, 2000)

  lemma TwoClientsJoin()
    ensures Run(Single, EMPTY, [Join(1), Join(2)]) == TWO_CLIENTS
    ensures Find(TWO_CLIENTS.clients, 1) == 0 && Find(TWO_CLIENTS.clients, 2) == 1
    ensures Run(Single, EMPTY, [Join(1)]) == Ledger([NewAccount(1)], [], 0, 0, 1000)
  {
    var ops := [Join(1), Join(2)];
    var one := Ledger([NewAccount(1)], [], 0, 0, 1000);
    assert ops[1..] == [Join(2)] && [Join(1)][1..] == [];
    assert Step(Single, EMPTY, Join(1)) == one;
    assert !Has([NewAccount(1)], 2);
    assert Step(Single, one, Join(2)) == TWO_CLIENTS;
  }

  lemma SumOfTwo(c: Account, d: Account)
    ensures Total([c, d], BalanceOf) == c.balance + d.balance
    ensures Total([c], BalanceOf) == c.balance
  {
    assert [c, d][..1] == [c] && [c][..0] == [];
    assert Total([c], BalanceOf) == Total([], BalanceOf) + c.balance;
  }

  lemma RoundAbovePrecision()
    ensures Round(16777217) == 16777216 && Round(16777219) == 16777220 && Round(16778216) == 16778216
  {
    assert Pow2(1) == 2 && Exponent(16777217) == 1 && Exponent(16777219) == 1 && Exponent(16778216) == 1;
  }

  lemma LossyTransfer()
    ensures TransferEffect(Single, TWO_CLIENTS, Request(1, 2, -16776217, 1)).clients
         == [Account(1, 1, 16777216), Account(2, 0, -16775217)]
  {
    TwoClientsJoin();
    RoundFixesRepresentable(-16776217);
    RoundFixesRepresentable(1000 - 16776217);
    RoundAbovePrecision();
  }

  /** Rounding can lose money: here one unit of 2000. */
  lemma RoundingCanLoseMoney()
    ensures var l := TransferEffect(Single, Run(Single, EMPTY, [Join(1), Join(2)]), Request(1, 2, -16776217, 1));
            l.totalBalance == 2000 && Total(l.clients, BalanceOf) == 1999
  {
    TwoClientsJoin();
    LossyTransfer();
    SumOfTwo(Account(1, 1, 16777216), Account(2, 0, -16775217));
  }

  /** Errors can cancel: the sum is right and the two balances are not what the log says. */
  lemma RoundingCanHideInTheSum()
    ensures var l := TransferEffect(Single, Run(Single, EMPTY, [Join(1), Join(2)]), Request(1, 2, -16777217, 1));
            Conserved(l) && !Replayed(l)
  {
    TwoClientsJoin();
    var r := Request(1, 2, -16777217, 1);
    RoundAbovePrecision();
    RoundFixesRepresentable(1000 - 16777216);
    assert Round(-16777217) == 0 - 16777216;
    var cs := [Account(1, 1, 16778216), Account(2, 0, -16776216)];
    assert TransferEffect(Single, TWO_CLIENTS, r).clients == cs;
    SumOfTwo(cs[0], cs[1]);
    EmptyIsSound();
    forall c ensures ReplayedAt(TWO_CLIENTS, c) {
      JoinReplays(Single, EMPTY, 1, c);
      JoinReplays(Single, EMPTY, 1, 2);
      assert JoinEffect(Single, EMPTY, 1) == Run(Single, EMPTY, [Join(1)]);
      JoinReplays(Single, JoinEffect(Single, EMPTY, 1), 2, c);
    }
    ReplayKeptExactly(TWO_CLIENTS, r);
  }

  /** A transfer to oneself can make money: 1001 in accounts whose total is 1000. */
  lemma RoundingCanMakeMoney()
    ensures var l := TransferEffect(Single, Run(Single, EMPTY, [Join(1)]), Request(1, 1, -16776219, 1));
            l.totalBalance == 1000 && Total(l.clients, BalanceOf) == 1001 && !Bounded(l)
  {
    TwoClientsJoin();
    RoundFixesRepresentable(-16776219);
    RoundFixesRepresentable(1001);
    RoundAbovePrecision();
    var l := Ledger([NewAccount(1)], [], 0, 0, 1000);
    assert TransferEffect(Single, l, Request(1, 1, -16776219, 1)).clients == [Account(1, 1, 1001)];
    SumOfTwo(Account(1, 1, 1001), Account(1, 1, 1001));
  }

  /** A value the destination cannot bear drives it below zero and the source above the total. */
  lemma NegativeValueBreaksBounds()
    ensures var l := TransferEffect(Single, Run(Single, EMPTY, [Join(1), Join(2)]), Request(1, 2, -1001, 1));
            l.clients == [Account(1, 1, 2001), Account(2, 0, -1)] && l.totalBalance == 2000 && !Bounded(l)
  {
    TwoClientsJoin();
    RoundFixesRepresentable(-1001);
    RoundFixesRepresentable(2001);
    RoundFixesRepresentable(-1);
  }
}
