/**
 What the shuffled start of a backup does not restore, and exactly when it does:
 the request counters and the total balance.
 */
module ReplicationLimits {
  import opened Binary32
  import opened LedgerModel
  import opened LedgerTheorems
  import opened Replication
  import opened RoundingLimits

  predicate Mentions(q: Packet, a: Address) {
    match q
    case ClientUpdate(c, _, _) => c == a
    case HistoryEntry(_) => false
    case StateUpdate(_, s, _, d, _) => s == a || d == a
  }

  /** The first packet about account a is a STATE_UPDATE: it overtook the snapshot's. */
  predicate Overtaken(out: seq<Packet>, a: Address) {
    if out == [] then false
    else if Mentions(out[0], a) then out[0].StateUpdate?
    else Overtaken(out[1..], a)
  }

  /** Some delivered update is about a transfer sent by a. */
  predicate SendsIn(out: seq<Packet>, a: Address) {
    exists i :: 0 <= i < |out| && out[i].StateUpdate? && out[i].source == a
  }

  lemma SendsInCons(out: seq<Packet>, a: Address)
    requires out != []
    ensures SendsIn(out, a) <==> (out[0].StateUpdate? && out[0].source == a) || SendsIn(out[1..], a)
  {
    if SendsIn(out, a) {
      var i :| 0 <= i < |out| && out[i].StateUpdate? && out[i].source == a;
      assert i > 0 ==> out[1..][i - 1] == out[i];
    }
    if SendsIn(out[1..], a) {
      var i :| 0 <= i < |out[1..]| && out[1..][i].StateUpdate? && out[1..][i].source == a;
      assert out[i + 1] == out[1..][i];
    }
  }

  // ----- request counters -----

  /** The counter the backup ends with, given where it stands and what is still to come. */
  ghost function CounterLeft(known: bool, now: int, final: int, out: seq<Packet>, a: Address): int {
    if SendsIn(out, a) then final
    else if known then now
    else if Overtaken(out, a) then 0
    else final
  }

  /** How packet q moves a's counter: now at the backup, before and after at the primary. */
  predicate CounterMove(q: Packet, a: Address, known: bool, now: int, known': bool, now': int, before: int, after: int) {
    && (known' <==> known || Mentions(q, a))
    && (!Mentions(q, a) ==> after == before && now' == now)
    && (q.StateUpdate? && q.source == a ==> now' == after)
    && (q.StateUpdate? && q.source != a ==> after == before)
    && (q.StateUpdate? && q.source != a && q.dest == a ==> now' == if known then now else 0)
    && (q.ClientUpdate? && q.address == a ==> after == before && now' == if known then now else before)
  }

  lemma TransferCounter(m: Arithmetic, p: Ledger, pending: multiset<Packet>, b: Ledger, r: Request, a: Address)
    requires Follows(p, pending, b) && StatusOf(m, p, r) == Success
    ensures var q := Emit(m, p, Transfer(r))[0];
            var p', b' := TransferEffect(m, p, r), Receive(m, b, q);
            CounterMove(q, a, Has(b.clients, a), LastReq(b, a), Has(b'.clients, a), LastReq(b', a),
                        LastReq(p, a), LastReq(p', a))
  {
    assert ShownRight(p.clients, b.clients, a);
    var q := Emit(m, p, Transfer(r))[0];
    TransferView(m, p, r);
    OverwriteView(b.clients, q);
    assert Receive(m, b, q).clients == Overwrite(b.clients, q);
    StepRaisesCounters(m, p, Transfer(r), a);
  }

  lemma JoinCounter(m: Arithmetic, p: Ledger, pending: multiset<Packet>, b: Ledger, c: Address, a: Address)
    requires Follows(p, pending, b) && !Has(p.clients, c)
    ensures var q := Emit(m, p, Join(c))[0];
            var p', b' := JoinEffect(m, p, c), Receive(m, b, q);
            CounterMove(q, a, Has(b.clients, a), LastReq(b, a), Has(b'.clients, a), LastReq(b', a),
                        LastReq(p, a), LastReq(p', a))
  {
    assert ShownRight(p.clients, b.clients, a) && ShownRight(p.clients, b.clients, c);
    FindAfterAppend(p.clients, NewAccount(c));
    FindAfterAppend(b.clients, NewAccount(c));
  }

  lemma LiveCounter(m: Arithmetic, p: Ledger, pending: multiset<Packet>, b: Ledger, op: Op, a: Address)
    requires Follows(p, pending, b) && Emit(m, p, op) != []
    ensures var q, p', b' := Emit(m, p, op)[0], Step(m, p, op), Receive(m, b, Emit(m, p, op)[0]);
            CounterMove(q, a, Has(b.clients, a), LastReq(b, a), Has(b'.clients, a), LastReq(b', a),
                        LastReq(p, a), LastReq(p', a))
  {
    match op
    case Transfer(r) => TransferCounter(m, p, pending, b, r, a);
    case Join(c) => JoinCounter(m, p, pending, b, c, a);
  }

  lemma SnapshotCounter(m: Arithmetic, p: Ledger, pending: multiset<Packet>, b: Ledger, q: Packet, a: Address)
    requires Follows(p, pending, b) && q in pending
    ensures var b' := Receive(m, b, q);
            CounterMove(q, a, Has(b.clients, a), LastReq(b, a), Has(b'.clients, a), LastReq(b', a),
                        LastReq(p, a), LastReq(p, a))
  {
    assert OnItsWay(p.clients, pending, b.clients, a);
    if q.ClientUpdate? {
      FindAfterAppend(b.clients, Account(q.address, q.lastReq, q.balance));
    }
  }

  /** What is left before a packet is what is left after it. */
  lemma CounterLeftMoves(out: seq<Packet>, a: Address, known: bool, now: int, known': bool, now': int,
                         before: int, after: int, final: int)
    requires out != [] && CounterMove(out[0], a, known, now, known', now', before, after)
    requires !SendsIn(out[1..], a) ==> final == after
    ensures CounterLeft(known', now', final, out[1..], a) == CounterLeft(known, now, final, out, a)
    ensures !SendsIn(out, a) ==> final == before
  {
    SendsInCons(out, a);
  }

  lemma NoExtra(pending: multiset<Packet>)
    ensures pending + multiset{} == pending
  {
  }

  lemma NothingLeft(p: Ledger, b: Ledger, a: Address)
    requires Follows(p, multiset{}, b)
    ensures LastReq(b, a) == CounterLeft(Has(b.clients, a), LastReq(b, a), LastReq(p, a), [], a)
  {
    assert OnItsWay(p.clients, multiset{}, b.clients, a);
  }

  lemma {:induction false} CounterDelivery(m: Arithmetic, p: Ledger, ops: seq<Op>, pending: multiset<Packet>,
                                           b: Ledger, out: seq<Packet>, a: Address)
    requires Follows(p, pending, b) && Interleaved(pending, EmitAll(m, p, ops), out)
    ensures var p', b' := Run(m, p, ops), ReceiveAll(m, b, out);
            && LastReq(b', a) == CounterLeft(Has(b.clients, a), LastReq(b, a), LastReq(p', a), out, a)
            && (!SendsIn(out, a) ==> LastReq(p', a) == LastReq(p, a))
    decreases |out| + |ops|
  {
    var final := LastReq(Run(m, p, ops), a);
    if ops != [] && Emit(m, p, ops[0]) == [] {
      FirstEmission(m, p, ops);
      CounterDelivery(m, p, ops[1..], pending, b, out, a);
    } else if out == [] {
      if ops != [] {
        FirstEmission(m, p, ops);
      }
      NothingLeft(p, b, a);
    } else {
      NoExtra(pending);
      var live := OneDelivery(m, p, ops, pending, multiset{}, b, out);
      NoExtra(pending - multiset{out[0]});
      if live {
        CounterDelivery(m, Step(m, p, ops[0]), ops[1..], pending, Receive(m, b, out[0]), out[1..], a);
        LiveCounter(m, p, pending, b, ops[0], a);
      } else {
        CounterDelivery(m, p, ops, pending - multiset{out[0]}, Receive(m, b, out[0]), out[1..], a);
        SnapshotCounter(m, p, pending, b, out[0], a);
      }
      var b', after := Receive(m, b, out[0]), if live then LastReq(Step(m, p, ops[0]), a) else LastReq(p, a);
      CounterLeftMoves(out, a, Has(b.clients, a), LastReq(b, a), Has(b'.clients, a), LastReq(b', a),
                       LastReq(p, a), after, final);
    }
  }

  /**
   The counter of every account at the end of every shuffle: it is the primary's
   exactly when the account sent a transfer meanwhile, or was not created first
   as the destination of one, or had sent nothing before; else it is stuck at 0.
   */
  lemma CountersAtQuiescence(m: Arithmetic, p: Ledger, ops: seq<Op>, out: seq<Packet>, a: Address)
    requires Sane(p) && Interleaved(multiset(Snapshot(p)), EmitAll(m, p, ops), out)
    ensures var p', b' := Run(m, p, ops), ReceiveAll(m, EMPTY, out);
            && (LastReq(b', a) == LastReq(p', a) <==> SendsIn(out, a) || !Overtaken(out, a) || LastReq(p, a) == 0)
            && (LastReq(b', a) != LastReq(p', a) ==> LastReq(b', a) == 0)
  {
    SnapshotStarts(p);
    CounterDelivery(m, p, ops, multiset(Snapshot(p)), EMPTY, out, a);
  }

  // ----- the total balance -----

  /** What the snapshot will still add to the backup's total: the accounts not overtaken. */
  ghost function Due(cs: seq<Account>, bc: seq<Account>, out: seq<Packet>): int {
    if cs == [] then 0
    else
      var c := cs[|cs| - 1];
      Due(cs[..|cs| - 1], bc, out)
        + if Has(bc, c.address) || Overtaken(out, c.address) then 0 else c.balance
  }

  ghost function Missed(cs: seq<Account>, out: seq<Packet>): int {
    if cs == [] then 0
    else
      var c := cs[|cs| - 1];
      Missed(cs[..|cs| - 1], out) + if Overtaken(out, c.address) then c.balance else 0
  }

  /** Every account update of the snapshot carries an account of cs. */
  ghost predicate FromSnapshot(cs: seq<Account>, pending: multiset<Packet>) {
    forall q :: q in pending && q.ClientUpdate? ==> Has(cs, q.address) && q == Carrier(cs, q.address)
  }

  lemma PrefixFind(cs: seq<Account>, x: Address)
    requires cs != [] && Unique(cs)
    ensures var n := |cs| - 1;
            && Unique(cs[..n])
            && (cs[n].address == x ==> !Has(cs[..n], x) && Has(cs, x) && Get(cs, x) == cs[n])
            && (cs[n].address != x ==> (Has(cs[..n], x) <==> Has(cs, x)) && (Has(cs, x) ==> Get(cs[..n], x) == Get(cs, x)))
  {
    var n := |cs| - 1;
    assert cs == cs[..n] + [cs[n]];
    FindAfterAppend(cs[..n], cs[n]);
    FindIs(cs[..n], cs[n].address, n);
  }

  /** Accepting x's own packet turns what was due for x into total. */
  lemma {:induction false} DueAfterAccept(cs: seq<Account>, bc: seq<Account>, x: Account, out: seq<Packet>)
    requires Unique(cs) && out != [] && out[0].ClientUpdate? && out[0].address == x.address && !Has(bc, x.address)
    ensures Due(cs, bc, out)
         == Due(cs, bc + [x], out[1..]) + if Has(cs, x.address) then Get(cs, x.address).balance else 0
  {
    FindAfterAppend(bc, x);
    if cs != [] {
      PrefixFind(cs, x.address);
      DueAfterAccept(cs[..|cs| - 1], bc, x, out);
    }
  }

  /** A packet that creates accounts only by overtaking, or creates none, leaves the due sum. */
  lemma {:induction false} DueUnchanged(cs: seq<Account>, bc: seq<Account>, bc': seq<Account>, out: seq<Packet>)
    requires out != []
    requires forall a :: Has(bc', a) <==> Has(bc, a) || (Mentions(out[0], a) && out[0].StateUpdate?)
    requires out[0].ClientUpdate? ==> Has(bc, out[0].address)
    ensures Due(cs, bc, out) == Due(cs, bc', out[1..])
  {
    if cs != [] {
      DueUnchanged(cs[..|cs| - 1], bc, bc', out);
    }
  }

  lemma ReceiveMovesDue(cs: seq<Account>, b: Ledger, out: seq<Packet>)
    requires Unique(cs) && out != []
    requires out[0].ClientUpdate? && Has(cs, out[0].address) ==> out[0] == Carrier(cs, out[0].address)
    ensures var b' := Receive(Exact, b, out[0]);
            var unseen := out[0].ClientUpdate? && !Has(b.clients, out[0].address) && !Has(cs, out[0].address);
            b'.totalBalance + Due(cs, b'.clients, out[1..])
            == b.totalBalance + Due(cs, b.clients, out) + (if unseen then out[0].balance else 0)
  {
    var q := out[0];
    if q.ClientUpdate? && !Has(b.clients, q.address) {
      DueAfterAccept(cs, b.clients, Account(q.address, q.lastReq, q.balance), out);
    } else {
      if q.StateUpdate? {
        OverwriteView(b.clients, q);
      }
      DueUnchanged(cs, b.clients, Receive(Exact, b, q).clients, out);
    }
  }

  lemma LiveTotal(cs: seq<Account>, p: Ledger, pending: multiset<Packet>, b: Ledger, op: Op)
    requires Follows(p, pending, b) && Emit(Exact, p, op) != []
    requires forall a :: Has(cs, a) ==> Has(p.clients, a)
    ensures var q, p' := Emit(Exact, p, op)[0], Step(Exact, p, op);
            && (forall a :: Has(cs, a) ==> Has(p'.clients, a))
            && (q.StateUpdate? ==> p'.totalBalance == p.totalBalance)
            && (!q.StateUpdate? ==>
                  && q.ClientUpdate? && p'.totalBalance == p.totalBalance + q.balance
                  && !Has(cs, q.address) && !Has(b.clients, q.address))
  {
    match op
    case Transfer(r) => TransferView(Exact, p, r);
    case Join(a) =>
      FindAfterAppend(p.clients, NewAccount(a));
      assert ShownRight(p.clients, b.clients, a);
  }

  /** The backup's total grows by what is due from cs and by each new client's initial balance. */
  lemma {:induction false} TotalDelivery(cs: seq<Account>, p: Ledger, ops: seq<Op>, pending: multiset<Packet>,
                                         b: Ledger, out: seq<Packet>)
    requires Follows(p, pending, b) && Interleaved(pending, EmitAll(Exact, p, ops), out)
    requires Unique(cs) && FromSnapshot(cs, pending)
    requires forall a :: Has(cs, a) ==> Has(p.clients, a)
    ensures ReceiveAll(Exact, b, out).totalBalance - b.totalBalance
         == Due(cs, b.clients, out) + Run(Exact, p, ops).totalBalance - p.totalBalance
    decreases |out| + |ops|
  {
    if ops != [] && Emit(Exact, p, ops[0]) == [] {
      FirstEmission(Exact, p, ops);
      TotalDelivery(cs, p, ops[1..], pending, b, out);
    } else if out == [] {
      if ops != [] {
        FirstEmission(Exact, p, ops);
      }
      forall i | 0 <= i < |cs| ensures Has(p.clients, cs[i].address) {
        assert Has(cs, cs[i].address);
      }
      NothingDue(cs, p, b);
    } else {
      NoExtra(pending);
      var live := OneDelivery(Exact, p, ops, pending, multiset{}, b, out);
      NoExtra(pending - multiset{out[0]});
      if live {
        var p' := Step(Exact, p, ops[0]);
        LiveTotal(cs, p, pending, b, ops[0]);
        TotalDelivery(cs, p', ops[1..], pending, Receive(Exact, b, out[0]), out[1..]);
      } else {
        TotalDelivery(cs, p, ops, pending - multiset{out[0]}, Receive(Exact, b, out[0]), out[1..]);
      }
      ReceiveMovesDue(cs, b, out);
    }
  }

  lemma {:induction false} NothingDue(cs: seq<Account>, p: Ledger, b: Ledger)
    requires Follows(p, multiset{}, b)
    requires forall i :: 0 <= i < |cs| ==> Has(p.clients, cs[i].address)
    ensures Due(cs, b.clients, []) == 0
  {
    if cs != [] {
      var a := cs[|cs| - 1].address;
      assert OnItsWay(p.clients, multiset{}, b.clients, a);
      NothingDue(cs[..|cs| - 1], p, b);
    }
  }

  lemma {:induction false} DuePlusMissed(cs: seq<Account>, out: seq<Packet>)
    ensures Due(cs, [], out) + Missed(cs, out) == Total(cs, BalanceOf)
  {
    if cs != [] {
      DuePlusMissed(cs[..|cs| - 1], out);
    }
  }

  lemma {:induction false} MissedNothing(cs: seq<Account>, out: seq<Packet>)
    requires forall i :: 0 <= i < |cs| ==> cs[i].balance >= 0
    ensures Missed(cs, out) >= 0
    ensures Missed(cs, out) == 0
       <==> forall i :: 0 <= i < |cs| ==> cs[i].balance == 0 || !Overtaken(out, cs[i].address)
  {
    if cs != [] {
      var n := |cs| - 1;
      MissedNothing(cs[..n], out);
      assert forall i :: 0 <= i < n ==> cs[..n][i] == cs[i];
    }
  }

  /**
   After every shuffle the backup's total balance falls short of the primary's
   by the snapshot balances of the overtaken accounts. With no negative
   balance, it is right exactly when only empty accounts were overtaken.
   */
  lemma TotalAtQuiescence(p: Ledger, ops: seq<Op>, out: seq<Packet>)
    requires Sane(p) && Total(p.clients, BalanceOf) == p.totalBalance
    requires Interleaved(multiset(Snapshot(p)), EmitAll(Exact, p, ops), out)
    ensures var p', b' := Run(Exact, p, ops), ReceiveAll(Exact, EMPTY, out);
            && b'.totalBalance == p'.totalBalance - Missed(p.clients, out)
            && ((forall i :: 0 <= i < |p.clients| ==> p.clients[i].balance >= 0) ==>
                  (b'.totalBalance == p'.totalBalance
                   <==> forall i :: 0 <= i < |p.clients| ==>
                          p.clients[i].balance == 0 || !Overtaken(out, p.clients[i].address)))
  {
    SnapshotStarts(p);
    var pending := multiset(Snapshot(p));
    forall q | q in pending && q.ClientUpdate?
      ensures Has(p.clients, q.address) && q == Carrier(p.clients, q.address)
    {
      assert OnItsWay(p.clients, pending, EMPTY.clients, q.address);
    }
    TotalDelivery(p.clients, p, ops, pending, EMPTY, out);
    DuePlusMissed(p.clients, out);
    if forall i :: 0 <= i < |p.clients| ==> p.clients[i].balance >= 0 {
      MissedNothing(p.clients, out);
    }
  }

  // ----- the same in the program's own arithmetic -----

  /** A shuffle delivers nothing but the snapshot's and the live packets. */
  lemma {:induction false} DeliversOnly(snapshot: multiset<Packet>, live: seq<Packet>, out: seq<Packet>, q: Packet)
    requires Interleaved(snapshot, live, out) && q in out
    ensures q in snapshot || q in live
    decreases |out|
  {
    if out[0] != q {
      if out[0] in snapshot && Interleaved(snapshot - multiset{out[0]}, live, out[1..]) {
        DeliversOnly(snapshot - multiset{out[0]}, live, out[1..], q);
      } else {
        DeliversOnly(snapshot, live[1..], out[1..], q);
      }
    }
  }

  /** A primary announces every new client with the initial balance. */
  lemma {:induction false} LiveClientsAreNew(m: Arithmetic, p: Ledger, ops: seq<Op>, q: Packet)
    requires q in EmitAll(m, p, ops) && q.ClientUpdate?
    ensures q.balance == INITIAL_BALANCE
    decreases ops
  {
    if q !in Emit(m, p, ops[0]) {
      LiveClientsAreNew(m, Step(m, p, ops[0]), ops[1..], q);
    }
  }

  ghost predicate NoDebts(out: seq<Packet>) {
    forall i :: 0 <= i < |out| && out[i].ClientUpdate? ==> out[i].balance >= 0
  }

  lemma {:induction false} TotalOnlyGrows(b: Ledger, out: seq<Packet>)
    requires NoDebts(out)
    ensures b.totalBalance <= ReceiveAll(Exact, b, out).totalBalance
    decreases out
  {
    if out != [] {
      TotalOnlyGrows(Receive(Exact, b, out[0]), out[1..]);
    }
  }

  /** The backup's partial sums stay below the last one, so none of them is rounded. */
  lemma {:induction false} ReceivesExactly(b: Ledger, out: seq<Packet>)
    requires NoDebts(out) && 0 <= b.totalBalance && ReceiveAll(Exact, b, out).totalBalance < PRECISION
    ensures ReceiveAll(Single, b, out) == ReceiveAll(Exact, b, out)
    decreases out
  {
    if out != [] {
      var q, b' := out[0], Receive(Exact, b, out[0]);
      TotalOnlyGrows(b', out[1..]);
      if q.ClientUpdate? && !Has(b.clients, q.address) {
        SingleIsExact(q.balance, b.totalBalance);
      }
      assert Receive(Single, b, q) == b';
      ReceivesExactly(b', out[1..]);
    }
  }

  lemma ShuffleHasNoDebts(p: Ledger, ops: seq<Op>, out: seq<Packet>)
    requires Bounded(p) && Interleaved(multiset(Snapshot(p)), EmitAll(Exact, p, ops), out)
    ensures NoDebts(out)
  {
    var live := EmitAll(Exact, p, ops);
    forall i | 0 <= i < |out| && out[i].ClientUpdate? ensures out[i].balance >= 0 {
      DeliversOnly(multiset(Snapshot(p)), live, out, out[i]);
      if out[i] in live {
        LiveClientsAreNew(Exact, p, ops, out[i]);
      } else {
        assert out[i] in Snapshot(p) && out[i] !in HistoryPackets(p.history);
        var j :| 0 <= j < |p.clients| && ClientPackets(p.clients)[j] == out[i];
      }
    }
  }

  /**
   With non-negative values and at most 16777 clients no sum is rounded, at the
   primary or at the backup, whatever the shuffle; and the backup's float total
   is right exactly when only empty accounts were overtaken.
   */
  lemma FloatTotalAtQuiescence(p: Ledger, ops: seq<Op>, out: seq<Packet>)
    requires Sane(p) && Conserved(p) && Bounded(p)
    requires forall op :: op in ops ==> NonNegative(op)
    requires |Run(Exact, p, ops).clients| <= MAX_CLIENTS
    requires Interleaved(multiset(Snapshot(p)), EmitAll(Single, p, ops), out)
    ensures var p', b' := Run(Single, p, ops), ReceiveAll(Single, EMPTY, out);
            && p' == Run(Exact, p, ops) && b' == ReceiveAll(Exact, EMPTY, out)
            && b'.totalBalance == p'.totalBalance - Missed(p.clients, out)
            && (b'.totalBalance == p'.totalBalance
                <==> forall i :: 0 <= i < |p.clients| ==>
                       p.clients[i].balance == 0 || !Overtaken(out, p.clients[i].address))
  {
    FloatRefinesInteger(p, ops);
    TotalAtQuiescence(p, ops, out);
    MissedNothing(p.clients, out);
    RunConserves(p, ops);
    ShuffleHasNoDebts(p, ops, out);
    ReceivesExactly(EMPTY, out);
  }

  lemma {:induction false} SnapshotAlone(snapshot: seq<Packet>)
    ensures Interleaved(multiset(snapshot), [], snapshot)
  {
    if snapshot != [] {
      SnapshotAlone(snapshot[1..]);
      assert snapshot == [snapshot[0]] + snapshot[1..];
      assert multiset(snapshot) - multiset{snapshot[0]} == multiset(snapshot[1..]);
    }
  }

  lemma {:induction false} LiveFirst(snapshot: seq<Packet>, live: seq<Packet>)
    ensures Interleaved(multiset(snapshot), live, live + snapshot)
    decreases |live|
  {
    var out := live + snapshot;
    if live != [] {
      LiveFirst(snapshot, live[1..]);
      assert out[1..] == live[1..] + snapshot;
    } else {
      SnapshotAlone(snapshot);
      assert out == snapshot;
    }
  }

  /** Two clients, the second of which has sent one transfer. */
  const BUSY: Ledger := Ledger([Account(1, 0, 1000), Account(2, 1, 1000)], [Transaction(1, 2, 2, 0, 1)], 1, 0, 2000)

  lemma TwoClientsGetBusy()
    ensures TransferEffect(Single, TWO_CLIENTS, Request(2, 2, 0, 1)) == BUSY
  {
    FindIs(TWO_CLIENTS.clients, 2, 1);
    SingleIsExact(1000, 0);
  }

  lemma BusyIsReachable()
    ensures BUSY == Run(Single, EMPTY, [Join(1), Join(2), Transfer(Request(2, 2, 0, 1))])
  {
    var last: Op := Transfer(Request(2, 2, 0, 1));
    assert [Join(1), Join(2), last] == [Join(1), Join(2)] + [last];
    RunSnoc(Single, EMPTY, [Join(1), Join(2)], last);
    TwoClientsJoin();
    TwoClientsGetBusy();
  }

  const TEN: Request := Request(1, 2, 10, 1)

  lemma TenMoves()
    ensures Emit(Single, BUSY, Transfer(TEN)) == [StateUpdate(Transaction(2, 1, 2, 10, 1), 1, 990, 2, 1010)]
    ensures LastReq(TransferEffect(Single, BUSY, TEN), 2) == 1
  {
    FindIs(BUSY.clients, 1, 0);
    FindIs(BUSY.clients, 2, 1);
    SingleIsExact(1000, 10);
    TransferView(Single, BUSY, TEN);
  }

  lemma {:induction false} ReceiveConcat(m: Arithmetic, b: Ledger, xs: seq<Packet>, ys: seq<Packet>)
    ensures ReceiveAll(m, b, xs + ys) == ReceiveAll(m, ReceiveAll(m, b, xs), ys)
    decreases xs
  {
    if xs == [] {
      assert xs + ys == ys;
    } else {
      assert (xs + ys)[1..] == xs[1..] + ys;
      ReceiveConcat(m, Receive(m, b, xs[0]), xs[1..], ys);
    }
  }

  lemma TenArrives()
    ensures EmitAll(Single, BUSY, [Transfer(TEN)]) == Emit(Single, BUSY, Transfer(TEN))
    ensures ReceiveAll(Single, EMPTY, Emit(Single, BUSY, Transfer(TEN)))
         == Ledger([Account(1, 1, 990), Account(2, 0, 1010)], [Transaction(2, 1, 2, 10, 1)], 1, 10, 0)
  {
    TenMoves();
    var q := Emit(Single, BUSY, Transfer(TEN))[0];
    assert [Transfer(TEN)][1..] == [] && [q][1..] == [];
    assert Ensure([], 1) == [NewAccount(1)];
    assert Ensure([NewAccount(1)], 2) == [NewAccount(1), NewAccount(2)];
    FindIs([NewAccount(1), NewAccount(2)], 2, 1);
    assert Overwrite([], q) == [Account(1, 1, 990), Account(2, 0, 1010)];
  }

  lemma ReceiveFirst(m: Arithmetic, b: Ledger, q: Packet, rest: seq<Packet>)
    ensures ReceiveAll(m, b, [q] + rest) == ReceiveAll(m, Receive(m, b, q), rest)
  {
    assert ([q] + rest)[1..] == rest;
  }

  lemma SnapshotIgnored(b: Ledger)
    requires Has(b.clients, 1) && Has(b.clients, 2)
    ensures ReceiveAll(Single, b, Snapshot(BUSY)) == Append(b, BUSY.history[0])
  {
    var c1, c2, h := ClientUpdate(1, 1000, 0), ClientUpdate(2, 1000, 1), HistoryEntry(BUSY.history[0]);
    assert Snapshot(BUSY) == [c1] + ([c2] + ([h] + []));
    ReceiveFirst(Single, b, c1, [c2] + ([h] + []));
    ReceiveFirst(Single, b, c2, [h] + []);
    ReceiveFirst(Single, b, h, []);
  }

  /**
   Both restrictions bite when an update overtakes the snapshot: the backup ends
   with a counter of 0 instead of 1 and a total of 0 instead of 2000. This is what
   the update is meant to do; appending its destination moves the accounts, and
   the program's iterator to its source (Server.cpp:407-418) is then invalid.
   */
  lemma OvertakingHappens()
    ensures var live := EmitAll(Single, BUSY, [Transfer(TEN)]);
            var p', b' := Run(Single, BUSY, [Transfer(TEN)]), ReceiveAll(Single, EMPTY, live + Snapshot(BUSY));
            && Interleaved(multiset(Snapshot(BUSY)), live, live + Snapshot(BUSY))
            && LastReq(p', 2) == 1 && LastReq(b', 2) == 0
            && p'.totalBalance == 2000 && b'.totalBalance == 0
            && BUSY == Run(Single, EMPTY, [Join(1), Join(2), Transfer(Request(2, 2, 0, 1))])
  {
    BusyIsReachable();
    var live := EmitAll(Single, BUSY, [Transfer(TEN)]);
    LiveFirst(Snapshot(BUSY), live);
    TenArrives();
    TenMoves();
    ReceiveConcat(Single, EMPTY, live, Snapshot(BUSY));
    FindIs([Account(1, 1, 990), Account(2, 0, 1010)], 1, 0);
    FindIs([Account(1, 1, 990), Account(2, 0, 1010)], 2, 1);
    SnapshotIgnored(ReceiveAll(Single, EMPTY, live));
    assert [Transfer(TEN)][1..] == [];
  }
}
