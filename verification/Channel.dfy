/**
 The packets a running server object actually hands to the socket for one of
 its backups, and the replication theorems restated about them.
 */
module Channel {
  import opened Binary32
  import opened LedgerModel
  import opened LedgerTheorems
  import opened Replication
  import opened ServerObject

  function PacketsTo(b: Address, outs: seq<Outgoing>): seq<Packet> {
    if outs == [] then []
    else if outs[0].to == b then [outs[0].packet] + PacketsTo(b, outs[1..])
    else PacketsTo(b, outs[1..])
  }

  function SentDuring(id: Address, n: Node, es: seq<Event>): seq<Outgoing>
    decreases es
  {
    if es == [] then [] else NodeSends(n, es[0]) + SentDuring(id, NodeStep(id, n, es[0]), es[1..])
  }

  /** The ledger operation an event makes a primary perform. */
  function OpOf(n: Node, e: Event): seq<Op> {
    match e
    case Discovery(a) => [Join(a)]
    case Serve(r) => if r in n.jobs then [Transfer(r)] else []
    case _ => []
  }

  function OpsOf(id: Address, n: Node, es: seq<Event>): seq<Op>
    decreases es
  {
    if es == [] then [] else OpOf(n, es[0]) + OpsOf(id, NodeStep(id, n, es[0]), es[1..])
  }

  lemma {:induction false} PacketsToConcat(b: Address, xs: seq<Outgoing>, ys: seq<Outgoing>)
    ensures PacketsTo(b, xs + ys) == PacketsTo(b, xs) + PacketsTo(b, ys)
    decreases xs
  {
    if xs == [] {
      assert xs + ys == ys;
    } else {
      assert (xs + ys)[1..] == xs[1..] + ys;
      PacketsToConcat(b, xs[1..], ys);
    }
  }

  /** A subscriber gets one copy per subscription. */
  lemma {:induction false} ToAllReaches(b: Address, backups: seq<Address>, p: Packet)
    ensures PacketsTo(b, ToAll(backups, p)) == seq(multiset(backups)[b], _ => p)
  {
    if backups != [] {
      var rest: seq<Address> := backups[1..];
      assert backups == [backups[0]] + rest;
      assert multiset(backups)[b] == multiset(rest)[b] + if backups[0] == b then 1 else 0;
      assert ToAll(backups, p)[1..] == ToAll(rest, p);
      ToAllReaches(b, rest, p);
    }
  }

  lemma {:induction false} ToOneReaches(b: Address, c: Address, ps: seq<Packet>)
    ensures PacketsTo(b, ToOne(c, ps)) == if b == c then ps else []
  {
    if ps != [] {
      assert ToOne(c, ps)[1..] == ToOne(c, ps[1..]);
      ToOneReaches(b, c, ps[1..]);
    }
  }

  lemma EmissionReaches(b: Address, n: Node, op: Op)
    requires multiset(n.backups)[b] == 1
    ensures PacketsTo(b, Broadcast(n.backups, Emit(Single, n.ledger, op))) == Emit(Single, n.ledger, op)
  {
    var ps := Emit(Single, n.ledger, op);
    SilentOrOnePacket(Single, n.ledger, op);
    if ps != [] {
      assert ps == [ps[0]];
      BroadcastOne(n.backups, ps[0]);
      ToAllReaches(b, n.backups, ps[0]);
    }
  }

  /** Anything but another registration of b and the announcement of another primary. */
  predicate Ordinary(id: Address, b: Address, e: Event) {
    e != Register(b) && !Deposes(id, e)
  }

  lemma OrdinaryStep(id: Address, n: Node, e: Event, b: Address)
    requires n.role == Primary && !Deposes(id, e)
    ensures var n' := NodeStep(id, n, e);
            && n'.role == Primary && n'.ledger == Run(Single, n.ledger, OpOf(n, e))
            && (e != Register(b) ==> multiset(n'.backups)[b] == multiset(n.backups)[b])
  {
    assert forall op: Op :: [op][1..] == [];
  }

  /** The books of a primary that is not deposed are a run of its own operations, whatever packets it is handed. */
  lemma {:induction false} PrimaryBooks(id: Address, n: Node, es: seq<Event>, b: Address)
    requires n.role == Primary && forall e :: e in es ==> !Deposes(id, e)
    ensures var n' := NodeRun(id, n, es);
            && n'.role == Primary && n'.ledger == Run(Single, n.ledger, OpsOf(id, n, es))
            && (Register(b) !in es ==> multiset(n'.backups)[b] == multiset(n.backups)[b])
    decreases es
  {
    if es != [] {
      assert es[0] in es && forall e :: e in es[1..] ==> e in es;
      var n' := NodeStep(id, n, es[0]);
      OrdinaryStep(id, n, es[0], b);
      RunConcat(Single, n.ledger, OpOf(n, es[0]), OpsOf(id, n', es[1..]));
      PrimaryBooks(id, n', es[1..], b);
    }
  }

  lemma OrdinaryStepSends(id: Address, n: Node, e: Event, b: Address)
    requires n.role == Primary && multiset(n.backups)[b] == 1 && Ordinary(id, b, e)
    ensures PacketsTo(b, NodeSends(n, e)) == EmitAll(Single, n.ledger, OpOf(n, e))
  {
    assert forall op: Op :: [op][1..] == [];
    match e
    case Register(c) => ToOneReaches(b, c, Snapshot(n.ledger));
    case Discovery(a) => EmissionReaches(b, n, Join(a));
    case Serve(r) => EmissionReaches(b, n, Transfer(r));
    case _ =>
  }

  /** A backup registered once is sent the packets of the primary's ledger run. */
  lemma {:induction false} RegisteredChannel(id: Address, n: Node, es: seq<Event>, b: Address)
    requires n.role == Primary && multiset(n.backups)[b] == 1
    requires forall e :: e in es ==> Ordinary(id, b, e)
    ensures PacketsTo(b, SentDuring(id, n, es)) == EmitAll(Single, n.ledger, OpsOf(id, n, es))
    decreases es
  {
    if es != [] {
      assert Ordinary(id, b, es[0]);
      var n' := NodeStep(id, n, es[0]);
      OrdinaryStep(id, n, es[0], b);
      OrdinaryStepSends(id, n, es[0], b);
      PacketsToConcat(b, NodeSends(n, es[0]), SentDuring(id, n', es[1..]));
      EmitConcat(Single, n.ledger, OpOf(n, es[0]), OpsOf(id, n', es[1..]));
      RegisteredChannel(id, n', es[1..], b);
    }
  }

  // ----- the receiving server -----

  /** The replication packets among the events. */
  function PacketsIn(es: seq<Event>): seq<Packet> {
    if es == [] then [] else (if es[0].Replica? then [es[0].packet] else []) + PacketsIn(es[1..])
  }

  lemma BackupStep(id: Address, n: Node, e: Event)
    requires n.role == Backup && n.jobs == multiset{} && !e.Promote?
    ensures var n' := NodeStep(id, n, e);
            && n'.role == Backup && n'.jobs == multiset{} && NodeSends(n, e) == []
            && n'.ledger == if e.Replica? then Receive(Single, n.ledger, e.packet) else n.ledger
  {
  }

  lemma PacketsInCons(e: Event, es: seq<Event>)
    ensures PacketsIn([e] + es) == if e.Replica? then [e.packet] + PacketsIn(es) else PacketsIn(es)
  {
    assert ([e] + es)[1..] == es;
  }

  lemma ReceiveCons(l: Ledger, q: Packet, ps: seq<Packet>)
    ensures ReceiveAll(Single, l, [q] + ps) == ReceiveAll(Single, Receive(Single, l, q), ps)
  {
    assert ([q] + ps)[1..] == ps;
  }

  /**
   A server that is not promoted stays a backup that takes over exactly the
   packets it is handed, whatever else happens to it, and sends nothing.
   */
  lemma {:induction false} BackupBooks(id: Address, n: Node, es: seq<Event>)
    requires n.role == Backup && n.jobs == multiset{} && forall e :: e in es ==> !e.Promote?
    ensures var n' := NodeRun(id, n, es);
            && n'.role == Backup && n'.jobs == multiset{} && n'.ledger == ReceiveAll(Single, n.ledger, PacketsIn(es))
    ensures SentDuring(id, n, es) == []
    decreases es
  {
    if es != [] {
      var e, rest := es[0], es[1..];
      assert es == [e] + rest;
      BackupStep(id, n, e);
      BackupBooks(id, NodeStep(id, n, e), rest);
      PacketsInCons(e, rest);
      if e.Replica? {
        ReceiveCons(n.ledger, e.packet, PacketsIn(rest));
      }
    }
  }

  /**
   One server registers another and goes on serving; however the network and the
   sending threads shuffle the packets it sent, and whatever else happens to the
   other server short of a promotion, that server ends with its books.
   */
  lemma RegisteredBackupConverges(id: Address, n: Node, es: seq<Event>, b: Address, theirs: seq<Event>)
    requires Sane(n.ledger) && n.role == Primary && b !in n.backups
    requires forall e :: e in es ==> Ordinary(id, b, e)
    requires forall e :: e in theirs ==> !e.Promote?
    requires var copy := PacketsTo(b, NodeSends(n, Register(b)));
             var live := PacketsTo(b, SentDuring(id, NodeStep(id, n, Register(b)), es));
             Interleaved(multiset(copy), live, PacketsIn(theirs))
    ensures var backup := NodeRun(b, NEWBORN, theirs);
            Agrees(NodeRun(id, NodeStep(id, n, Register(b)), es).ledger, backup.ledger) && backup.role == Backup
  {
    var n' := NodeStep(id, n, Register(b));
    assert multiset(n.backups)[b] == 0;
    ToOneReaches(b, b, Snapshot(n.ledger));
    RegisteredChannel(id, n', es, b);
    PrimaryBooks(id, n', es, b);
    BackupBooks(b, NEWBORN, theirs);
    SnapshotConfluence(Single, n.ledger, OpsOf(id, n', es), PacketsIn(theirs));
  }

  /** A server object as constructed, promoted, and after any service before b registers. */
  function Serving(id: Address, before: seq<Event>): Node {
    NodeRun(id, NodeStep(id, NEWBORN, Promote), before)
  }

  lemma ServingIsReady(id: Address, n: Node, before: seq<Event>, b: Address)
    requires n.role == Primary && n.ledger == EMPTY && n.backups == []
    requires forall e :: e in before ==> Ordinary(id, b, e)
    ensures var n' := NodeRun(id, n, before);
            n'.role == Primary && Sane(n'.ledger) && ExactlyOnce(n'.ledger) && b !in n'.backups
  {
    PrimaryBooks(id, n, before, b);
    FreshPrimary(OpsOf(id, n, before));
    assert multiset(n.backups)[b] == 0;
  }

  lemma ServedOn(id: Address, n: Node, es: seq<Event>, b: Address)
    requires n.role == Primary && ExactlyOnce(n.ledger) && forall e :: e in es ==> Ordinary(id, b, e)
    ensures ExactlyOnce(NodeRun(id, NodeStep(id, n, Register(b)), es).ledger)
  {
    var n' := NodeStep(id, n, Register(b));
    PrimaryBooks(id, n', es, b);
    LogIsExactlyOnce(Single, n'.ledger, OpsOf(id, n', es));
  }

  lemma ReadyServerReplicates(id: Address, n: Node, b: Address, es: seq<Event>, theirs: seq<Event>)
    requires n.role == Primary && Sane(n.ledger) && ExactlyOnce(n.ledger) && b !in n.backups
    requires forall e :: e in es ==> Ordinary(id, b, e)
    requires forall e :: e in theirs ==> !e.Promote?
    requires var copy := PacketsTo(b, NodeSends(n, Register(b)));
             var live := PacketsTo(b, SentDuring(id, NodeStep(id, n, Register(b)), es));
             Interleaved(multiset(copy), live, PacketsIn(theirs))
    ensures var last := NodeRun(id, NodeStep(id, n, Register(b)), es).ledger;
            Agrees(last, NodeRun(b, NEWBORN, theirs).ledger) && ExactlyOnce(last)
  {
    RegisteredBackupConverges(id, n, es, b, theirs);
    ServedOn(id, n, es, b);
  }

  /**
   From two constructors on: a fresh server is promoted and serves, then another
   fresh server registers while service goes on; every shuffle of what the first
   sent to the second rebuilds its books there.
   */
  lemma FreshServerReplicates(id: Address, before: seq<Event>, b: Address, es: seq<Event>, theirs: seq<Event>)
    requires forall e :: e in before + es ==> Ordinary(id, b, e)
    requires forall e :: e in theirs ==> !e.Promote?
    requires var n := Serving(id, before);
             var copy := PacketsTo(b, NodeSends(n, Register(b)));
             var live := PacketsTo(b, SentDuring(id, NodeStep(id, n, Register(b)), es));
             Interleaved(multiset(copy), live, PacketsIn(theirs))
    ensures var last := NodeRun(id, NodeStep(id, Serving(id, before), Register(b)), es).ledger;
            Agrees(last, NodeRun(b, NEWBORN, theirs).ledger) && ExactlyOnce(last)
  {
    ServingIsReady(id, NodeStep(id, NEWBORN, Promote), before, b);
    ReadyServerReplicates(id, Serving(id, before), b, es, theirs);
  }

  /** A server promoted after any time as a backup carries on from the packets it was handed. */
  lemma PromotedBackupServes(id: Address, theirs: seq<Event>, after: seq<Event>)
    requires forall e :: e in theirs ==> !e.Promote?
    requires forall e :: e in after ==> !Deposes(id, e)
    ensures var n := NodeStep(id, NodeRun(id, NEWBORN, theirs), Promote);
            && n.role == Primary && n.backups == []
            && NodeRun(id, n, after).ledger
               == Run(Single, ReceiveAll(Single, EMPTY, PacketsIn(theirs)), OpsOf(id, n, after))
  {
    BackupBooks(id, NEWBORN, theirs);
    PrimaryBooks(id, NodeStep(id, NodeRun(id, NEWBORN, theirs), Promote), after, 0);
  }

  function AskedFor(es: seq<Event>, r: Request): nat {
    if es == [] then 0 else (if es[0] == Asked(r) then 1 else 0) + AskedFor(es[1..], r)
  }

  function Executed(ops: seq<Op>, r: Request): nat {
    if ops == [] then 0 else (if ops[0] == Transfer(r) then 1 else 0) + Executed(ops[1..], r)
  }

  lemma ExecutedConcat(xs: seq<Op>, ys: seq<Op>, r: Request)
    requires |xs| <= 1
    ensures Executed(xs + ys, r) == Executed(xs, r) + Executed(ys, r)
  {
    if xs == [] {
      assert xs + ys == ys;
    } else {
      assert (xs + ys)[1..] == ys && xs[1..] == [];
    }
  }

  lemma ThreadStep(id: Address, n: Node, e: Event, r: Request)
    requires n.role == Primary && !Deposes(id, e)
    ensures NodeStep(id, n, e).role == Primary && |OpOf(n, e)| <= 1
    ensures Executed(OpOf(n, e), r) + NodeStep(id, n, e).jobs[r] == n.jobs[r] + if e == Asked(r) then 1 else 0
  {
    assert forall op: Op :: [op][1..] == [];
  }

  /** A primary processes each request packet once: as often as it was asked, less the threads still to run. */
  lemma {:induction false} EachThreadServesOnce(id: Address, n: Node, es: seq<Event>, r: Request)
    requires n.role == Primary && forall e :: e in es ==> !Deposes(id, e)
    ensures Executed(OpsOf(id, n, es), r) + NodeRun(id, n, es).jobs[r] == n.jobs[r] + AskedFor(es, r)
    decreases es
  {
    if es != [] {
      assert es[0] in es && forall e :: e in es[1..] ==> e in es;
      var n' := NodeStep(id, n, es[0]);
      ThreadStep(id, n, es[0], r);
      ExecutedConcat(OpOf(n, es[0]), OpsOf(id, n', es[1..]), r);
      EachThreadServesOnce(id, n', es[1..], r);
    }
  }
}
