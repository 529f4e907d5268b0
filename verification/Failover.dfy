/**
 Failover: a backup that has received the whole snapshot and then any prefix of
 the live updates holds, field by field, a state its primary went through, and
 carries on from it when promoted.
 */
module Failover {
  import opened Binary32
  import opened LedgerModel
  import opened LedgerTheorems
  import opened Replication
  import opened ReplicationLimits

  // ----- the snapshot rebuilds the books -----

  /** Every partial sum of the balances is added without rounding. */
  ghost predicate Summable(m: Arithmetic, cs: seq<Account>) {
    m == Exact
    || (Total(cs, BalanceOf) < PRECISION && forall i :: 0 <= i < |cs| ==> cs[i].balance >= 0)
  }

  lemma {:induction false} ClientPacketsRestore(m: Arithmetic, cs: seq<Account>)
    requires Unique(cs) && Summable(m, cs)
    ensures ReceiveAll(m, EMPTY, ClientPackets(cs)) == Ledger(cs, [], 0, 0, Total(cs, BalanceOf))
  {
    if cs != [] {
      var n := |cs| - 1;
      var c, before := cs[n], cs[..n];
      assert cs == before + [c];
      if m == Single {
        TotalBoundsEach(cs, n);
        NonNegativeTotal(before);
        SingleIsExact(c.balance, Total(before, BalanceOf));
      }
      ClientPacketsRestore(m, before);
      var q := ClientUpdate(c.address, c.balance, c.lastReq);
      assert ClientPackets(cs) == ClientPackets(before) + [q];
      ReceiveConcat(m, EMPTY, ClientPackets(before), [q]);
      FindIs(before, c.address, n);
      assert [q][1..] == [];
    }
  }

  lemma NonNegativeTotal(cs: seq<Account>)
    requires forall i :: 0 <= i < |cs| ==> cs[i].balance >= 0
    ensures Total(cs, BalanceOf) >= 0
  {
    if cs != [] {
      TotalBoundsEach(cs, 0);
    }
  }

  lemma {:induction false} HistoryPacketsRestore(m: Arithmetic, b: Ledger, h: seq<Transaction>)
    requires b.history == [] && b.numTransactions == 0 && b.totalTransferred == 0
    ensures ReceiveAll(m, b, HistoryPackets(h))
         == b.(history := h, numTransactions := |h|, totalTransferred := SumValues(h))
  {
    if h != [] {
      var n := |h| - 1;
      HistoryPacketsRestore(m, b, h[..n]);
      assert h == h[..n] + [h[n]];
      assert HistoryPackets(h) == HistoryPackets(h[..n]) + [HistoryEntry(h[n])];
      ReceiveConcat(m, b, HistoryPackets(h[..n]), [HistoryEntry(h[n])]);
      assert [HistoryEntry(h[n])][1..] == [];
    }
  }

  /**
   The snapshot delivered in full rebuilds every field except the total, which
   the backup sums from current balances; so the books are identical exactly
   when the primary has conserved its money.
   */
  lemma SnapshotRestores(m: Arithmetic, p: Ledger)
    requires Bookkept(p) && Summable(m, p.clients)
    ensures ReceiveAll(m, EMPTY, Snapshot(p)) == p.(totalBalance := Total(p.clients, BalanceOf))
    ensures ReceiveAll(m, EMPTY, Snapshot(p)) == p <==> Total(p.clients, BalanceOf) == p.totalBalance
  {
    ClientPacketsRestore(m, p.clients);
    ReceiveConcat(m, EMPTY, ClientPackets(p.clients), HistoryPackets(p.history));
    HistoryPacketsRestore(m, ReceiveAll(m, EMPTY, ClientPackets(p.clients)), p.history);
  }

  // ----- live updates keep identical books identical -----

  /** On the primary's own accounts a STATE_UPDATE writes what the transfer wrote. */
  lemma UpdateRewrites(m: Arithmetic, p: Ledger, r: Request)
    requires StatusOf(m, p, r) == Success
    ensures Overwrite(p.clients, Emit(m, p, Transfer(r))[0]) == TransferEffect(m, p, r).clients
  {
    var cs, s, d := p.clients, Find(p.clients, r.source), Find(p.clients, r.dest);
    var q, cs' := Emit(m, p, Transfer(r))[0], TransferEffect(m, p, r).clients;
    TransferView(m, p, r);
    assert q.sourceBalance == cs'[s].balance && q.destBalance == cs'[d].balance;
    assert Overwrite(cs, q) == Write(cs, s, d, q.sourceBalance, q.destBalance, r.seqn);
  }

  lemma UpdateMirrors(m: Arithmetic, p: Ledger, op: Op)
    ensures ReceiveAll(m, p, Emit(m, p, op)) == Step(m, p, op)
  {
    var qs := Emit(m, p, op);
    assert qs != [] ==> qs[1..] == [];
    if op.Transfer? && StatusOf(m, p, op.request) == Success {
      UpdateRewrites(m, p, op.request);
    }
  }

  lemma {:induction false} UpdatesMirrorRun(m: Arithmetic, p: Ledger, ops: seq<Op>)
    ensures ReceiveAll(m, p, EmitAll(m, p, ops)) == Run(m, p, ops)
    decreases ops
  {
    if ops != [] {
      var p' := Step(m, p, ops[0]);
      UpdateMirrors(m, p, ops[0]);
      ReceiveConcat(m, p, Emit(m, p, ops[0]), EmitAll(m, p', ops[1..]));
      UpdatesMirrorRun(m, p', ops[1..]);
    }
  }

  /**
   Prefix consistency: once the snapshot is delivered, after every further
   packet the backup's clients, history and all counters equal a state the
   primary passed through.
   */
  lemma PrefixConsistency(m: Arithmetic, p: Ledger, ops: seq<Op>, k: nat)
    requires Bookkept(p) && Summable(m, p.clients) && Total(p.clients, BalanceOf) == p.totalBalance
    requires k <= |EmitAll(m, p, ops)|
    ensures exists j | 0 <= j <= |ops| ::
              ReceiveAll(m, EMPTY, Snapshot(p) + EmitAll(m, p, ops)[..k]) == Run(m, p, ops[..j])
  {
    ReceiveConcat(m, EMPTY, Snapshot(p), EmitAll(m, p, ops)[..k]);
    SnapshotRestores(m, p);
    var j := EmittedBy(m, p, ops, k);
    UpdatesMirrorRun(m, p, ops[..j]);
  }

  /** On identical books the first packet has the effect of the operation that sent it. */
  lemma FirstPacketMirrors(m: Arithmetic, p: Ledger, ops: seq<Op>, k: nat)
    requires ops != [] && Emit(m, p, ops[0]) != [] && 0 < k <= |EmitAll(m, p, ops)|
    ensures var all, p' := EmitAll(m, p, ops), Step(m, p, ops[0]);
            && all[1..] == EmitAll(m, p', ops[1..])
            && ReceiveAll(m, p, all[..k]) == ReceiveAll(m, p', all[1..][..k - 1])
  {
    var all := EmitAll(m, p, ops);
    FirstEmission(m, p, ops);
    SilentOrOnePacket(m, p, ops[0]);
    UpdateMirrors(m, p, ops[0]);
    assert Emit(m, p, ops[0]) == [all[0]];
    assert all[..k] == [all[0]] + all[1..][..k - 1];
    ReceiveConcat(m, p, [all[0]], all[1..][..k - 1]);
  }

  /** On identical books every update finds its source and its destination. */
  lemma {:induction false} UpdatesFindTheirAccounts(m: Arithmetic, p: Ledger, ops: seq<Op>, k: nat)
    requires k < |EmitAll(m, p, ops)| && EmitAll(m, p, ops)[k].StateUpdate?
    ensures var b, q := ReceiveAll(m, p, EmitAll(m, p, ops)[..k]), EmitAll(m, p, ops)[k];
            Has(b.clients, q.source) && Has(b.clients, q.dest)
    decreases ops
  {
    FirstEmission(m, p, ops);
    if Emit(m, p, ops[0]) == [] {
      UpdatesFindTheirAccounts(m, Step(m, p, ops[0]), ops[1..], k);
    } else if k > 0 {
      FirstPacketMirrors(m, p, ops, k);
      UpdatesFindTheirAccounts(m, Step(m, p, ops[0]), ops[1..], k - 1);
    }
  }

  /** So after the whole snapshot no update has to append an account. */
  lemma AfterTheSnapshotNothingIsAppended(m: Arithmetic, p: Ledger, ops: seq<Op>, k: nat)
    requires Bookkept(p) && Summable(m, p.clients) && Total(p.clients, BalanceOf) == p.totalBalance
    requires k < |EmitAll(m, p, ops)| && EmitAll(m, p, ops)[k].StateUpdate?
    ensures var b, q := ReceiveAll(m, EMPTY, Snapshot(p) + EmitAll(m, p, ops)[..k]), EmitAll(m, p, ops)[k];
            && Has(b.clients, q.source) && Has(b.clients, q.dest)
            && |Receive(m, b, q).clients| == |b.clients|
  {
    ReceiveConcat(m, EMPTY, Snapshot(p), EmitAll(m, p, ops)[..k]);
    SnapshotRestores(m, p);
    UpdatesFindTheirAccounts(m, p, ops, k);
  }

  /**
   A whole history of service: a primary started fresh runs before, a backup
   joins, the primary runs during while the backup receives k updates, then the
   primary fails and the promoted backup runs after. What the promoted backup
   holds is a run of one single primary that lost the unreplicated suffix; so
   its log is exactly-once and its money conserved.
   */
  lemma FailoverIsOneRun(before: seq<Op>, during: seq<Op>, k: nat, after: seq<Op>)
    requires forall op :: op in before ==> NonNegative(op)
    requires |Run(Exact, EMPTY, before).clients| <= MAX_CLIENTS
    requires k <= |EmitAll(Single, Run(Single, EMPTY, before), during)|
    ensures var p := Run(Single, EMPTY, before);
            var b := ReceiveAll(Single, EMPTY, Snapshot(p) + EmitAll(Single, p, during)[..k]);
            exists j | 0 <= j <= |during| ::
              && b == Run(Single, EMPTY, before + during[..j])
              && Run(Single, b, after) == Run(Single, EMPTY, before + during[..j] + after)
              && ExactlyOnce(Run(Single, b, after))
              && ((forall op :: op in during + after ==> NonNegative(op))
                  && |Run(Exact, EMPTY, before + during[..j] + after).clients| <= MAX_CLIENTS ==>
                    Conserved(Run(Single, b, after)) && Bounded(Run(Single, b, after)))
  {
    FreshPrimary(before);
    var p := Run(Single, EMPTY, before);
    PrefixConsistency(Single, p, during, k);
    var b := ReceiveAll(Single, EMPTY, Snapshot(p) + EmitAll(Single, p, during)[..k]);
    var j :| 0 <= j <= |during| && b == Run(Single, p, during[..j]);
    RunConcat(Single, EMPTY, before, during[..j]);
    RunConcat(Single, EMPTY, before + during[..j], after);
    FreshPrimary(before + during[..j] + after);
  }

  // ----- promotion after a shuffled snapshot -----

  /** No request is in the log twice. */
  ghost predicate NothingTwice(h: seq<Transaction>) {
    forall i, j :: 0 <= i < j < |h| ==> h[i].source != h[j].source || h[i].seqn != h[j].seqn
  }

  /** Every entry is covered by its source's counter. */
  ghost predicate Covered(l: Ledger) {
    forall i :: 0 <= i < |l.history| ==> l.history[i].seqn <= LastReq(l, l.history[i].source)
  }

  lemma StepAppliesNothingTwice(m: Arithmetic, l: Ledger, op: Op)
    requires NothingTwice(l.history) && Covered(l)
    ensures NothingTwice(Step(m, l, op).history) && Covered(Step(m, l, op))
  {
    var l' := Step(m, l, op);
    if op.Transfer? {
      ReplyTellsTheTruth(m, l, op.request);
    }
    forall i | 0 <= i < |l'.history| ensures l'.history[i].seqn <= LastReq(l', l'.history[i].source) {
      StepRaisesCounters(m, l, op, l'.history[i].source);
      assert i < |l.history| ==> l'.history[i] == l.history[i];
    }
  }

  lemma {:induction false} RunAppliesNothingTwice(m: Arithmetic, l: Ledger, ops: seq<Op>)
    requires NothingTwice(l.history) && Covered(l)
    ensures NothingTwice(Run(m, l, ops).history)
    decreases ops
  {
    if ops != [] {
      StepAppliesNothingTwice(m, l, ops[0]);
      RunAppliesNothingTwice(m, Step(m, l, ops[0]), ops[1..]);
    }
  }

  lemma {:induction false} OnceOnly(h: seq<Transaction>, tx: Transaction)
    requires NothingTwice(h)
    ensures multiset(h)[tx] <= 1
  {
    if h != [] {
      var n := |h| - 1;
      assert h == h[..n] + [h[n]];
      OnceOnly(h[..n], tx);
      if h[n] == tx {
        assert tx !in h[..n];
      }
    }
  }

  lemma CountedTwice(g: seq<Transaction>, i: nat, j: nat)
    requires i < j < |g| && g[i] == g[j]
    ensures multiset(g)[g[i]] >= 2
  {
    assert g == g[..i] + [g[i]] + g[i + 1..j] + [g[j]] + g[j + 1..];
  }

  /** Whatever part of a log without repetitions another one holds has none either. */
  lemma PartNothingTwice(h: seq<Transaction>, g: seq<Transaction>)
    requires multiset(g) <= multiset(h) && NothingTwice(h)
    ensures NothingTwice(g)
  {
    forall i, j | 0 <= i < j < |g| ensures g[i].source != g[j].source || g[i].seqn != g[j].seqn {
      assert g[i] in multiset(g) && g[j] in multiset(g);
      assert g[i] in multiset(h) && g[j] in multiset(h);
      OnceOnly(h, g[i]);
      if g[i] == g[j] {
        CountedTwice(g, i, j);
      }
    }
  }

  lemma PermutedInLog(h: seq<Transaction>, g: seq<Transaction>, c: Address, seqn: int)
    requires multiset(h) == multiset(g)
    ensures InLog(h, c, seqn) <==> InLog(g, c, seqn)
  {
    if i :| 0 <= i < |h| && h[i].source == c && h[i].seqn == seqn {
      assert h[i] in multiset(g);
    }
    if i :| 0 <= i < |g| && g[i].source == c && g[i].seqn == seqn {
      assert g[i] in multiset(h);
    }
  }

  /** Any account can afford something, if only a negative value. */
  lemma SomethingAffordable(m: Arithmetic, balance: int) returns (value: int)
    ensures !m.Short(balance, value)
  {
    value := 0;
    RoundFixesRepresentable(0);
    if balance < 0 {
      var n: nat := -balance;
      value := 0 - Pow2(n);
      Pow2Grows(n);
      assert Scaled(Abs(value), 1, n);
      RoundFixesRepresentable(value);
    }
  }

  /** Some continuation applies a request twice. */
  ghost predicate CanRepeat(m: Arithmetic, b: Ledger) {
    exists after :: !NothingTwice(Run(m, b, after).history)
  }

  lemma RepeatsLater(m: Arithmetic, b: Ledger, op: Op)
    requires CanRepeat(m, Step(m, b, op))
    ensures CanRepeat(m, b)
  {
    var after :| !NothingTwice(Run(m, Step(m, b, op), after).history);
    assert ([op] + after)[1..] == after;
    assert !NothingTwice(Run(m, b, [op] + after).history);
  }

  /** The account sends its next request, with a value it can afford, to itself. */
  lemma SendNext(m: Arithmetic, b: Ledger, c: Address) returns (r: Request)
    requires Has(b.clients, c)
    ensures var b' := TransferEffect(m, b, r);
            && r.source == c && r.seqn == LastReq(b, c) + 1
            && b'.history == b.history + [Transaction(b.numTransactions + 1, c, r.dest, r.value, r.seqn)]
            && Has(b'.clients, c) && LastReq(b', c) == r.seqn
  {
    var value := SomethingAffordable(m, Get(b.clients, c).balance);
    r := Request(c, c, value, LastReq(b, c) + 1);
    assert StatusOf(m, b, r) == Success;
    ReplyTellsTheTruth(m, b, r);
    TransferView(m, b, r);
  }

  /** A counter behind the log works its way up to a number that is logged already. */
  lemma {:induction false} LaggingCounterRepeats(m: Arithmetic, b: Ledger, c: Address, seqn: int)
    requires Has(b.clients, c) && LastReq(b, c) < seqn && InLog(b.history, c, seqn)
    ensures CanRepeat(m, b)
    decreases seqn - LastReq(b, c)
  {
    var r := SendNext(m, b, c);
    var b' := TransferEffect(m, b, r);
    var i :| 0 <= i < |b.history| && b.history[i].source == c && b.history[i].seqn == seqn;
    assert b'.history[i] == b.history[i];
    if r.seqn == seqn {
      var h := b'.history;
      assert h[i].source == h[|h| - 1].source && h[i].seqn == h[|h| - 1].seqn;
      assert !NothingTwice(h);
      assert Run(m, b', []) == b';
    } else {
      LaggingCounterRepeats(m, b', c, seqn);
    }
    RepeatsLater(m, b, Transfer(r));
  }

  lemma UncoveredRepeats(m: Arithmetic, b: Ledger)
    requires !Covered(b)
    ensures CanRepeat(m, b)
  {
    var i :| 0 <= i < |b.history| && b.history[i].seqn > LastReq(b, b.history[i].source);
    var c, n := b.history[i].source, b.history[i].seqn;
    assert InLog(b.history, c, n);
    StepRaisesCounters(m, b, Join(c), c);
    FindAfterAppend(b.clients, NewAccount(c));
    LaggingCounterRepeats(m, Step(m, b, Join(c)), c, n);
    RepeatsLater(m, b, Join(c));
  }

  /**
   Whatever books a server is promoted with, as long as no request is in them
   twice: none ever will be if and only if every logged number is covered by its
   source's counter.
   */
  lemma PromotedRepeatsNothingExactly(m: Arithmetic, b: Ledger)
    requires NothingTwice(b.history)
    ensures (forall after :: NothingTwice(Run(m, b, after).history)) <==> Covered(b)
  {
    if Covered(b) {
      forall after ensures NothingTwice(Run(m, b, after).history) {
        RunAppliesNothingTwice(m, b, after);
      }
    } else {
      UncoveredRepeats(m, b);
      var after :| !NothingTwice(Run(m, b, after).history);
      assert exists after :: !NothingTwice(Run(m, b, after).history);
    }
  }

  /** Which goes for a backup promoted at any moment of the shuffle, since its log is a part of the primary's. */
  lemma PromotedAtAnyMoment(m: Arithmetic, p: Ledger, ops: seq<Op>, out: seq<Packet>, k: nat)
    requires ExactlyOnce(p) && Interleaved(multiset(Snapshot(p)), EmitAll(m, p, ops), out) && k <= |out|
    ensures var b := ReceiveAll(m, EMPTY, out[..k]);
            && NothingTwice(b.history)
            && ((forall after :: NothingTwice(Run(m, b, after).history)) <==> Covered(b))
  {
    var j, rest := Cut(m, p, ops, out, k);
    var p', b := Run(m, p, ops[..j]), ReceiveAll(m, EMPTY, out[..k]);
    LogIsExactlyOnce(m, p, ops[..j]);
    NothingTwiceInLog(p');
    forall tx ensures multiset(b.history)[tx] <= multiset(p'.history)[tx] {
      assert multiset(b.history)[tx] + rest[HistoryEntry(tx)] == multiset(p'.history)[tx];
    }
    PartNothingTwice(p'.history, b.history);
    PromotedRepeatsNothingExactly(m, b);
  }

  lemma NothingTwiceInLog(l: Ledger)
    requires ExactlyOnce(l)
    ensures NothingTwice(l.history)
  {
    forall i, j | 0 <= i < j < |l.history|
      ensures l.history[i].source != l.history[j].source || l.history[i].seqn != l.history[j].seqn
    {
      NoRequestTwice(l, i, j);
    }
  }

  /** The account's counter survives the shuffle. */
  ghost predicate CounterKept(p: Ledger, out: seq<Packet>, a: Address) {
    SendsIn(out, a) || !Overtaken(out, a) || LastReq(p, a) == 0
  }

  lemma ShuffledBackup(m: Arithmetic, p: Ledger, ops: seq<Op>, out: seq<Packet>)
    requires ExactlyOnce(p) && Interleaved(multiset(Snapshot(p)), EmitAll(m, p, ops), out)
    ensures var p', b := Run(m, p, ops), ReceiveAll(m, EMPTY, out);
            ExactlyOnce(p') && Agrees(p', b) && NothingTwice(b.history)
  {
    assert forall c :: SeqnsOf(p.history, c) == Upto(LastReq(p, c)) ==> LastReq(p, c) >= 0;
    LogIsExactlyOnce(m, p, ops);
    SnapshotConfluence(m, p, ops, out);
    NothingTwiceInLog(Run(m, p, ops));
    PartNothingTwice(Run(m, p, ops).history, ReceiveAll(m, EMPTY, out).history);
  }

  /** With the primary's log, exactly the primary's counters cover it. */
  lemma CoveredByPrimaryCounters(p: Ledger, b: Ledger)
    requires ExactlyOnce(p) && Agrees(p, b) && forall a :: LastReq(b, a) == LastReq(p, a) || LastReq(b, a) == 0
    ensures Covered(b) <==> forall a :: LastReq(b, a) == LastReq(p, a)
  {
    if forall a :: LastReq(b, a) == LastReq(p, a) {
      forall i | 0 <= i < |b.history| ensures b.history[i].seqn <= LastReq(b, b.history[i].source) {
        var c, n := b.history[i].source, b.history[i].seqn;
        assert InLog(b.history, c, n);
        PermutedInLog(p.history, b.history, c, n);
        LoggedUpToLastReq(p, c, n);
      }
    } else {
      var a :| LastReq(b, a) != LastReq(p, a);
      LoggedUpToLastReq(p, a, 1);
      PermutedInLog(p.history, b.history, a, 1);
      var i :| 0 <= i < |b.history| && b.history[i].source == a && b.history[i].seqn == 1;
      assert b.history[i].seqn > LastReq(b, b.history[i].source);
    }
  }

  /**
   Once everything has arrived, it can be read off the shuffle: no request can
   ever be applied twice if and only if every account's counter survived: it sent
   a transfer meanwhile, was not first created as the destination of one, or had
   sent nothing before.
   */
  lemma PromotedBackupRepeatsNothingExactly(m: Arithmetic, p: Ledger, ops: seq<Op>, out: seq<Packet>)
    requires ExactlyOnce(p) && Interleaved(multiset(Snapshot(p)), EmitAll(m, p, ops), out)
    ensures (forall after :: NothingTwice(Run(m, ReceiveAll(m, EMPTY, out), after).history))
       <==> (forall a :: CounterKept(p, out, a))
  {
    var p', b := Run(m, p, ops), ReceiveAll(m, EMPTY, out);
    ShuffledBackup(m, p, ops, out);
    PromotedRepeatsNothingExactly(m, b);
    forall a ensures LastReq(b, a) == LastReq(p', a) <==> CounterKept(p, out, a)
      ensures LastReq(b, a) == LastReq(p', a) || LastReq(b, a) == 0
    {
      CountersAtQuiescence(m, p, ops, out, a);
    }
    CoveredByPrimaryCounters(p', b);
  }
}
