/**
 Replication to a fresh backup. The primary copies its books under the writer
 lock but sends the copy after releasing it, so the snapshot packets interleave
 with the updates of later operations. Updates keep their order; the snapshot
 packets may come in any order and between any two updates.
 */
module Replication {
  import opened Binary32
  import opened LedgerModel
  import opened LedgerTheorems

  /** out delivers every snapshot packet, in any order, and every live packet, in order. */
  ghost predicate Interleaved(snapshot: multiset<Packet>, live: seq<Packet>, out: seq<Packet>)
    decreases |out|
  {
    if out == [] then snapshot == multiset{} && live == []
    else
      || (out[0] in snapshot && Interleaved(snapshot - multiset{out[0]}, live, out[1..]))
      || (live != [] && out[0] == live[0] && Interleaved(snapshot, live[1..], out[1..]))
  }

  ghost predicate Sane(l: Ledger) {
    Bookkept(l) && forall c :: LastReq(l, c) >= 0
  }

  ghost function Carrier(pc: seq<Account>, a: Address): Packet
    requires Has(pc, a)
  {
    ClientUpdate(a, Get(pc, a).balance, Get(pc, a).lastReq)
  }

  /** An account the backup knows shows the primary's balance ... */
  ghost predicate ShownRight(pc: seq<Account>, bc: seq<Account>, a: Address) {
    Has(bc, a) ==>
      && Has(pc, a)
      && Get(bc, a).balance == Get(pc, a).balance
      && Get(bc, a).lastReq <= Get(pc, a).lastReq
  }

  /** ... and one it does not know is on its way, unchanged since the snapshot. */
  ghost predicate OnItsWay(pc: seq<Account>, pending: multiset<Packet>, bc: seq<Account>, a: Address) {
    && (Has(pc, a) && !Has(bc, a) ==> Carrier(pc, a) in pending)
    && (!Has(bc, a) ==>
          forall q :: q in pending && q.ClientUpdate? && q.address == a ==> Has(pc, a) && q == Carrier(pc, a))
  }

  ghost predicate HistorySplit(ph: seq<Transaction>, pending: multiset<Packet>, bh: seq<Transaction>) {
    forall tx :: multiset(bh)[tx] + pending[HistoryEntry(tx)] == multiset(ph)[tx]
  }

  /** The backup b, with the given snapshot packets still to come, follows the primary state p. */
  ghost predicate Follows(p: Ledger, pending: multiset<Packet>, b: Ledger) {
    && Sane(p) && Bookkept(b)
    && (forall a :: ShownRight(p.clients, b.clients, a))
    && (forall a :: OnItsWay(p.clients, pending, b.clients, a))
    && (forall q :: q in pending ==> !q.StateUpdate?)
    && HistorySplit(p.history, pending, b.history)
  }

  // ----- the start: nothing delivered -----

  lemma {:induction false} HistoryPacketCount(h: seq<Transaction>, tx: Transaction)
    ensures multiset(HistoryPackets(h))[HistoryEntry(tx)] == multiset(h)[tx]
  {
    if h != [] {
      var n := |h| - 1;
      HistoryPacketCount(h[..n], tx);
      assert h == h[..n] + [h[n]];
      assert HistoryPackets(h) == HistoryPackets(h[..n]) + [HistoryEntry(h[n])];
    }
  }

  lemma SnapshotCarries(p: Ledger, a: Address)
    requires Sane(p)
    ensures OnItsWay(p.clients, multiset(Snapshot(p)), [], a)
  {
    var clientPart, historyPart := ClientPackets(p.clients), HistoryPackets(p.history);
    if Has(p.clients, a) {
      assert clientPart[Find(p.clients, a)] == Carrier(p.clients, a);
      assert Carrier(p.clients, a) in clientPart;
    }
    forall q | q in multiset(Snapshot(p)) && q.ClientUpdate? && q.address == a
      ensures Has(p.clients, a) && q == Carrier(p.clients, a)
    {
      assert q !in historyPart;
      var i :| 0 <= i < |clientPart| && clientPart[i] == q;
      HasIffMember(p.clients, q.address);
    }
  }

  lemma SnapshotStarts(p: Ledger)
    requires Sane(p)
    ensures Follows(p, multiset(Snapshot(p)), EMPTY)
  {
    var clientPart, historyPart := ClientPackets(p.clients), HistoryPackets(p.history);
    var pending := multiset(Snapshot(p));
    forall tx ensures pending[HistoryEntry(tx)] == multiset(p.history)[tx] {
      HistoryPacketCount(p.history, tx);
      assert HistoryEntry(tx) !in clientPart;
    }
    forall a ensures OnItsWay(p.clients, pending, EMPTY.clients, a) {
      SnapshotCarries(p, a);
    }
    forall q | q in pending ensures !q.StateUpdate? {
      assert q in clientPart || q in historyPart;
    }
  }

  // ----- one packet -----

  lemma SnapshotPacketAccount(m: Arithmetic, pc: seq<Account>, pending: multiset<Packet>, b: Ledger, q: Packet, a: Address)
    requires q in pending && !q.StateUpdate?
    requires ShownRight(pc, b.clients, a) && OnItsWay(pc, pending, b.clients, a)
    ensures ShownRight(pc, Receive(m, b, q).clients, a)
    ensures OnItsWay(pc, pending - multiset{q}, Receive(m, b, q).clients, a)
  {
    var bc := Receive(m, b, q).clients;
    if q.ClientUpdate? && !Has(b.clients, q.address) {
      FindAfterAppend(b.clients, Account(q.address, q.lastReq, q.balance));
      assert q.address == a ==> Has(pc, a) && q == Carrier(pc, a);
    } else {
      assert bc == b.clients;
    }
  }

  lemma SnapshotPacketHistory(m: Arithmetic, ph: seq<Transaction>, pending: multiset<Packet>, b: Ledger, q: Packet)
    requires q in pending && !q.StateUpdate? && HistorySplit(ph, pending, b.history)
    ensures HistorySplit(ph, pending - multiset{q}, Receive(m, b, q).history)
  {
    var rest, bh := pending - multiset{q}, Receive(m, b, q).history;
    forall tx ensures multiset(bh)[tx] + rest[HistoryEntry(tx)] == multiset(ph)[tx] {
      assert multiset(b.history)[tx] + pending[HistoryEntry(tx)] == multiset(ph)[tx];
      assert HistoryEntry(tx) != q ==> rest[HistoryEntry(tx)] == pending[HistoryEntry(tx)];
    }
  }

  lemma SnapshotPacketFollows(m: Arithmetic, p: Ledger, pending: multiset<Packet>, b: Ledger, q: Packet)
    requires Follows(p, pending, b) && q in pending
    ensures Follows(p, pending - multiset{q}, Receive(m, b, q))
  {
    ReceiveKeepsBookkeeping(m, b, q);
    SnapshotPacketHistory(m, p.history, pending, b, q);
    var rest, bc := pending - multiset{q}, Receive(m, b, q).clients;
    forall a ensures ShownRight(p.clients, bc, a) && OnItsWay(p.clients, rest, bc, a) {
      assert ShownRight(p.clients, b.clients, a) && OnItsWay(p.clients, pending, b.clients, a);
      SnapshotPacketAccount(m, p.clients, pending, b, q, a);
    }
  }

  lemma SilentOrOnePacket(m: Arithmetic, l: Ledger, op: Op)
    ensures |Emit(m, l, op)| <= 1
    ensures Emit(m, l, op) == [] ==> Step(m, l, op) == l
  {
  }

  lemma StepKeepsSane(m: Arithmetic, l: Ledger, op: Op)
    requires Sane(l)
    ensures Sane(Step(m, l, op))
  {
    StepKeepsBookkeeping(m, l, op);
    var l' := Step(m, l, op);
    match op
    case Transfer(r) =>
      if StatusOf(m, l, r) == Success {
        TransferView(m, l, r);
        forall c ensures LastReq(l', c) >= 0 {
          assert LastReq(l, c) >= 0 && LastReq(l, r.source) >= 0;
          assert Find(l'.clients, c) == Find(l.clients, c);
        }
      }
    case Join(a) =>
      FindAfterAppend(l.clients, NewAccount(a));
      forall c ensures LastReq(l', c) >= 0 {
        assert LastReq(l, c) >= 0;
      }
  }

  lemma {:induction false} RunKeepsSane(m: Arithmetic, l: Ledger, ops: seq<Op>)
    requires Sane(l)
    ensures Sane(Run(m, l, ops))
    decreases ops
  {
    if ops != [] {
      StepKeepsSane(m, l, ops[0]);
      RunKeepsSane(m, Step(m, l, ops[0]), ops[1..]);
    }
  }

  lemma TransferAccountFollows(m: Arithmetic, p: Ledger, pending: multiset<Packet>, b: Ledger, r: Request, a: Address)
    requires StatusOf(m, p, r) == Success && LastReq(p, a) >= 0
    requires ShownRight(p.clients, b.clients, a) && OnItsWay(p.clients, pending, b.clients, a)
    ensures var pc, bc := TransferEffect(m, p, r).clients, Receive(m, b, Emit(m, p, Transfer(r))[0]).clients;
            ShownRight(pc, bc, a) && OnItsWay(pc, pending, bc, a)
  {
    var q := Emit(m, p, Transfer(r))[0];
    var pc, bc := TransferEffect(m, p, r).clients, Receive(m, b, q).clients;
    TransferView(m, p, r);
    OverwriteView(b.clients, q);
    assert bc == Overwrite(b.clients, q);
    assert Find(pc, a) == Find(p.clients, a);
    if a != r.source && a != r.dest {
      assert Has(p.clients, a) ==> Get(pc, a) == Get(p.clients, a);
      assert Has(b.clients, a) ==> Get(bc, a) == Get(b.clients, a);
      assert Has(bc, a) <==> Has(b.clients, a);
    } else {
      assert Get(bc, a).balance == Get(pc, a).balance;
    }
  }

  lemma TransferPacketFollows(m: Arithmetic, p: Ledger, pending: multiset<Packet>, b: Ledger, r: Request)
    requires Follows(p, pending, b) && StatusOf(m, p, r) == Success
    ensures Follows(TransferEffect(m, p, r), pending, Receive(m, b, Emit(m, p, Transfer(r))[0]))
  {
    StepKeepsSane(m, p, Transfer(r));
    ReceiveKeepsBookkeeping(m, b, Emit(m, p, Transfer(r))[0]);
    var pc, bc := TransferEffect(m, p, r).clients, Receive(m, b, Emit(m, p, Transfer(r))[0]).clients;
    forall a ensures ShownRight(pc, bc, a) && OnItsWay(pc, pending, bc, a) {
      assert ShownRight(p.clients, b.clients, a) && OnItsWay(p.clients, pending, b.clients, a);
      TransferAccountFollows(m, p, pending, b, r, a);
    }
  }

  lemma JoinPacketFollows(m: Arithmetic, p: Ledger, pending: multiset<Packet>, b: Ledger, a: Address)
    requires Follows(p, pending, b) && !Has(p.clients, a)
    ensures Follows(JoinEffect(m, p, a), pending, Receive(m, b, Emit(m, p, Join(a))[0]))
  {
    StepKeepsSane(m, p, Join(a));
    ReceiveKeepsBookkeeping(m, b, Emit(m, p, Join(a))[0]);
    FindAfterAppend(p.clients, NewAccount(a));
    FindAfterAppend(b.clients, NewAccount(a));
    assert ShownRight(p.clients, b.clients, a);
    var pc, bc := JoinEffect(m, p, a).clients, Receive(m, b, Emit(m, p, Join(a))[0]).clients;
    forall c
      ensures ShownRight(pc, bc, c) && OnItsWay(pc, pending, bc, c)
    {
      assert ShownRight(p.clients, b.clients, c) && OnItsWay(p.clients, pending, b.clients, c);
    }
  }

  lemma LivePacketFollows(m: Arithmetic, p: Ledger, pending: multiset<Packet>, b: Ledger, op: Op)
    requires Follows(p, pending, b) && Emit(m, p, op) != []
    ensures Follows(Step(m, p, op), pending, Receive(m, b, Emit(m, p, op)[0]))
  {
    match op
    case Transfer(r) => TransferPacketFollows(m, p, pending, b, r);
    case Join(a) => JoinPacketFollows(m, p, pending, b, a);
  }

  // ----- every interleaving -----

  /** The first operation either says nothing and changes nothing, or says one thing. */
  lemma FirstEmission(m: Arithmetic, p: Ledger, ops: seq<Op>)
    requires ops != []
    ensures var rest := EmitAll(m, Step(m, p, ops[0]), ops[1..]);
            if Emit(m, p, ops[0]) == [] then Step(m, p, ops[0]) == p && EmitAll(m, p, ops) == rest
            else EmitAll(m, p, ops) != [] && EmitAll(m, p, ops)[0] == Emit(m, p, ops[0])[0]
                 && EmitAll(m, p, ops)[1..] == rest
  {
    SilentOrOnePacket(m, p, ops[0]);
  }

  /** One delivered packet: it comes from the snapshot, or is the next live one. */
  lemma OneDelivery(m: Arithmetic, p: Ledger, ops: seq<Op>, pending: multiset<Packet>, extra: multiset<Packet>,
                    b: Ledger, out: seq<Packet>)
    returns (live: bool)
    requires Follows(p, pending + extra, b) && Interleaved(pending, EmitAll(m, p, ops), out)
    requires out != [] && (ops != [] ==> Emit(m, p, ops[0]) != [])
    ensures !live ==> && out[0] in pending
                      && Interleaved(pending - multiset{out[0]}, EmitAll(m, p, ops), out[1..])
                      && Follows(p, pending - multiset{out[0]} + extra, Receive(m, b, out[0]))
    ensures live ==> && ops != [] && out[0] == Emit(m, p, ops[0])[0]
                     && Interleaved(pending, EmitAll(m, Step(m, p, ops[0]), ops[1..]), out[1..])
                     && Follows(Step(m, p, ops[0]), pending + extra, Receive(m, b, out[0]))
  {
    live := !(out[0] in pending && Interleaved(pending - multiset{out[0]}, EmitAll(m, p, ops), out[1..]));
    if live {
      FirstEmission(m, p, ops);
      LivePacketFollows(m, p, pending + extra, b, ops[0]);
    } else {
      assert pending + extra - multiset{out[0]} == pending - multiset{out[0]} + extra;
      SnapshotPacketFollows(m, p, pending + extra, b, out[0]);
    }
  }

  /**
   Once the pending packets and the updates of ops are delivered, interleaved in
   any way, the backup follows the primary's last state; extra is what of the
   snapshot is still to come then.
   */
  lemma {:induction false} Delivery(m: Arithmetic, p: Ledger, ops: seq<Op>, pending: multiset<Packet>,
                                    extra: multiset<Packet>, b: Ledger, out: seq<Packet>)
    requires Follows(p, pending + extra, b) && Interleaved(pending, EmitAll(m, p, ops), out)
    ensures Follows(Run(m, p, ops), extra, ReceiveAll(m, b, out))
    decreases |out| + |ops|
  {
    if ops != [] && Emit(m, p, ops[0]) == [] {
      FirstEmission(m, p, ops);
      Delivery(m, p, ops[1..], pending, extra, b, out);
    } else if out == [] {
      if ops != [] {
        FirstEmission(m, p, ops);
      }
      assert pending + extra == extra;
    } else {
      var live := OneDelivery(m, p, ops, pending, extra, b, out);
      if live {
        Delivery(m, Step(m, p, ops[0]), ops[1..], pending, extra, Receive(m, b, out[0]), out[1..]);
      } else {
        Delivery(m, p, ops, pending - multiset{out[0]}, extra, Receive(m, b, out[0]), out[1..]);
      }
    }
  }

  // ----- what has been delivered after k packets -----

  /** The first k packets interleave part of the snapshot with the first i live packets. */
  lemma {:induction false} Truncated(snapshot: multiset<Packet>, live: seq<Packet>, out: seq<Packet>, k: nat)
    returns (i: nat, rest: multiset<Packet>)
    requires Interleaved(snapshot, live, out) && k <= |out|
    ensures i <= |live| && rest <= snapshot
    ensures Interleaved(snapshot - rest, live[..i], out[..k])
    decreases k
  {
    if k == 0 {
      i, rest := 0, snapshot;
    } else if out[0] in snapshot && Interleaved(snapshot - multiset{out[0]}, live, out[1..]) {
      i, rest := Truncated(snapshot - multiset{out[0]}, live, out[1..], k - 1);
      assert snapshot - rest - multiset{out[0]} == snapshot - multiset{out[0]} - rest;
      assert out[..k][1..] == out[1..][..k - 1];
    } else {
      i, rest := Truncated(snapshot, live[1..], out[1..], k - 1);
      assert live[..i + 1][1..] == live[1..][..i];
      assert out[..k][1..] == out[1..][..k - 1];
      i := i + 1;
    }
  }

  lemma LastEmission(m: Arithmetic, p: Ledger, ops: seq<Op>)
    requires ops != []
    ensures var before, all := EmitAll(m, p, ops[..|ops| - 1]), EmitAll(m, p, ops);
            before <= all && |all| <= |before| + 1
  {
    var n := |ops| - 1;
    assert ops == ops[..n] + [ops[n]];
    RunSnoc(m, p, ops[..n], ops[n]);
    SilentOrOnePacket(m, Run(m, p, ops[..n]), ops[n]);
  }

  /** The first i packets are those of the first j operations. */
  lemma {:induction false} EmittedBy(m: Arithmetic, p: Ledger, ops: seq<Op>, i: nat) returns (j: nat)
    requires i <= |EmitAll(m, p, ops)|
    ensures j <= |ops| && EmitAll(m, p, ops[..j]) == EmitAll(m, p, ops)[..i]
    decreases |ops|
  {
    j := |ops|;
    assert ops[..j] == ops;
    if i < |EmitAll(m, p, ops)| {
      LastEmission(m, p, ops);
      j := EmittedBy(m, p, ops[..|ops| - 1], i);
      assert ops[..|ops| - 1][..j] == ops[..j];
    }
  }

  lemma {:induction false} SumOfPermutation(h: seq<Transaction>, g: seq<Transaction>)
    requires multiset(h) == multiset(g)
    ensures |h| == |g| && SumValues(h) == SumValues(g)
  {
    assert |multiset(h)| == |multiset(g)|;
    if h != [] {
      var n := |h| - 1;
      assert h == h[..n] + [h[n]];
      assert h[n] in multiset(g);
      var i :| 0 <= i < |g| && g[i] == h[n];
      WithoutOne(g, i);
      assert multiset(h[..n]) == multiset(h) - multiset{h[n]};
      SumOfPermutation(h[..n], g[..i] + g[i + 1..]);
      SumWithout(g, i);
    }
  }

  lemma WithoutOne(g: seq<Transaction>, i: nat)
    requires i < |g|
    ensures multiset(g[..i] + g[i + 1..]) == multiset(g) - multiset{g[i]}
  {
    assert g == g[..i] + [g[i]] + g[i + 1..];
  }

  lemma {:induction false} SumWithout(g: seq<Transaction>, i: nat)
    requires i < |g|
    ensures SumValues(g) == SumValues(g[..i] + g[i + 1..]) + g[i].value
  {
    var n := |g| - 1;
    if i < n {
      SumWithout(g[..n], i);
      var rest := g[..i] + g[i + 1..];
      assert rest[..n - 1] == g[..n][..i] + g[..n][i + 1..];
    } else {
      assert g[..i] + g[i + 1..] == g[..n];
    }
  }

  /** The backup has the primary's books, up to the order of accounts and entries. */
  ghost predicate Agrees(p: Ledger, b: Ledger) {
    && (forall a :: Has(p.clients, a) <==> Has(b.clients, a))
    && (forall a :: Has(p.clients, a) ==> Get(b.clients, a).balance == Get(p.clients, a).balance)
    && multiset(b.history) == multiset(p.history)
    && b.numTransactions == p.numTransactions
    && b.totalTransferred == p.totalTransferred
  }

  lemma FollowsToTheEnd(p: Ledger, b: Ledger)
    requires Follows(p, multiset{}, b)
    ensures Agrees(p, b)
  {
    forall a
      ensures Has(p.clients, a) <==> Has(b.clients, a)
      ensures Has(p.clients, a) ==> Get(b.clients, a).balance == Get(p.clients, a).balance
    {
      assert ShownRight(p.clients, b.clients, a) && OnItsWay(p.clients, multiset{}, b.clients, a);
    }
    assert forall tx :: multiset(b.history)[tx] == multiset(p.history)[tx];
    SumOfPermutation(b.history, p.history);
  }

  /**
   Snapshot and live updates may be shuffled in every possible way: the fresh
   backup ends with the primary's accounts, balances, transactions and counters.
   */
  lemma SnapshotConfluence(m: Arithmetic, p: Ledger, ops: seq<Op>, out: seq<Packet>)
    requires Sane(p) && Interleaved(multiset(Snapshot(p)), EmitAll(m, p, ops), out)
    ensures Agrees(Run(m, p, ops), ReceiveAll(m, EMPTY, out))
  {
    SnapshotStarts(p);
    assert multiset(Snapshot(p)) + multiset{} == multiset(Snapshot(p));
    Delivery(m, p, ops, multiset(Snapshot(p)), multiset{}, EMPTY, out);
    FollowsToTheEnd(Run(m, p, ops), ReceiveAll(m, EMPTY, out));
  }

  /** At every moment of the shuffle the backup follows one state of the primary. */
  lemma Cut(m: Arithmetic, p: Ledger, ops: seq<Op>, out: seq<Packet>, k: nat) returns (j: nat, rest: multiset<Packet>)
    requires Sane(p) && Interleaved(multiset(Snapshot(p)), EmitAll(m, p, ops), out) && k <= |out|
    ensures j <= |ops| && Follows(Run(m, p, ops[..j]), rest, ReceiveAll(m, EMPTY, out[..k]))
  {
    SnapshotStarts(p);
    var pending, i := multiset(Snapshot(p)), 0;
    i, rest := Truncated(pending, EmitAll(m, p, ops), out, k);
    j := EmittedBy(m, p, ops, i);
    assert pending - rest + rest == pending;
    Delivery(m, p, ops[..j], pending - rest, rest, EMPTY, out[..k]);
  }

  /**
   At every moment of the shuffle the accounts the backup knows show balances
   the primary had, all at one same moment of its run, and request counters
   that never exceed the primary's of that moment.
   */
  lemma ConsistentCutAtEveryMoment(m: Arithmetic, p: Ledger, ops: seq<Op>, out: seq<Packet>, k: nat)
    requires Sane(p) && Interleaved(multiset(Snapshot(p)), EmitAll(m, p, ops), out) && k <= |out|
    ensures exists j | 0 <= j <= |ops| ::
              forall a :: ShownRight(Run(m, p, ops[..j]).clients, ReceiveAll(m, EMPTY, out[..k]).clients, a)
  {
    var j, rest := Cut(m, p, ops, out, k);
  }
}
