/**
 The server as an object: the fields of the program's Server class and the
 methods that update them in place, each proved against the functions of
 LedgerModel, in the program's own binary32 arithmetic.
 */
module ServerObject {
  import opened Binary32
  import opened LedgerModel
  import opened LedgerTheorems

  datatype Role = Primary | Backup

  /** Everything a server remembers, as a value; jobs are the requests its detached threads have yet to process. */
  datatype Node = Node(role: Role, backups: seq<Address>, jobs: multiset<Request>, ledger: Ledger)

  const NEWBORN: Node := Node(Backup, [], multiset{}, EMPTY)

  /** What can happen to a server, one receive-loop or thread step at a time. */
  datatype Event =
    | Discovery(client: Address)
    | Asked(request: Request)     // a request packet, for which a thread is started
    | Serve(request: Request)     // such a thread processes its request
    | Register(backup: Address)
    | Replica(packet: Packet)
    | Promote
    | Announcement(leader: Address)

  datatype Outgoing = Outgoing(to: Address, packet: Packet)

  function ToAll(backups: seq<Address>, p: Packet): (r: seq<Outgoing>)
    ensures |r| == |backups|
  {
    seq(|backups|, i requires 0 <= i < |backups| => Outgoing(backups[i], p))
  }

  function Broadcast(backups: seq<Address>, ps: seq<Packet>): seq<Outgoing> {
    if ps == [] then [] else ToAll(backups, ps[0]) + Broadcast(backups, ps[1..])
  }

  lemma BroadcastOne(backups: seq<Address>, p: Packet)
    ensures Broadcast(backups, [p]) == ToAll(backups, p)
    ensures Broadcast(backups, []) == []
  {
    assert [p][1..] == [];
  }

  function ToOne(backup: Address, ps: seq<Packet>): (r: seq<Outgoing>)
    ensures |r| == |ps|
  {
    seq(|ps|, i requires 0 <= i < |ps| => Outgoing(backup, ps[i]))
  }

  function NodeStep(id: Address, n: Node, e: Event): Node {
    match e
    case Discovery(a) => if n.role == Primary then n.(ledger := JoinEffect(Single, n.ledger, a)) else n
    case Asked(r) => if n.role == Primary then n.(jobs := n.jobs + multiset{r}) else n
    case Serve(r) =>
      if r in n.jobs then n.(jobs := n.jobs - multiset{r}, ledger := TransferEffect(Single, n.ledger, r)) else n
    case Register(b) => if n.role == Primary then n.(backups := n.backups + [b]) else n
    case Replica(p) => if n.role == Backup then n.(ledger := Receive(Single, n.ledger, p)) else n
    case Promote => if n.role == Backup then n.(role := Primary, backups := []) else n
    case Announcement(leader) => if leader != id then n.(role := Backup, backups := []) else n
  }

  /** What the step hands to the socket. */
  function NodeSends(n: Node, e: Event): seq<Outgoing> {
    match e
    case Discovery(a) => if n.role == Primary then Broadcast(n.backups, Emit(Single, n.ledger, Join(a))) else []
    case Serve(r) =>
      if n.role == Primary && r in n.jobs then Broadcast(n.backups, Emit(Single, n.ledger, Transfer(r))) else []
    case Register(b) => if n.role == Primary then ToOne(b, Snapshot(n.ledger)) else []
    case _ => []
  }

  function NodeRun(id: Address, n: Node, es: seq<Event>): Node
    decreases es
  {
    if es == [] then n else NodeRun(id, NodeStep(id, n, es[0]), es[1..])
  }

  lemma EventKeepsBookkeeping(id: Address, n: Node, e: Event)
    requires Bookkept(n.ledger)
    ensures Bookkept(NodeStep(id, n, e).ledger)
  {
    match e
    case Discovery(a) => StepKeepsBookkeeping(Single, n.ledger, Join(a));
    case Asked(_) =>
    case Serve(r) => StepKeepsBookkeeping(Single, n.ledger, Transfer(r));
    case Replica(p) => ReceiveKeepsBookkeeping(Single, n.ledger, p);
    case Register(_) =>
    case Promote =>
    case Announcement(_) =>
  }

  /**
   Under any sequence of requests, replication packets (lost, duplicated,
   reordered or forged) and role changes, addresses stay unique, the counter is
   the length of the history and the transferred total is its sum.
   */
  lemma {:induction false} BookkeepingSurvivesAnything(id: Address, n: Node, es: seq<Event>)
    requires Bookkept(n.ledger)
    ensures Bookkept(NodeRun(id, n, es).ledger)
    decreases es
  {
    if es != [] {
      EventKeepsBookkeeping(id, n, es[0]);
      BookkeepingSurvivesAnything(id, NodeStep(id, n, es[0]), es[1..]);
    }
  }

  // ----- roles -----

  /** Another server's announcement. */
  predicate Deposes(id: Address, e: Event) {
    e.Announcement? && e.leader != id
  }

  lemma {:induction false} NodeRunSnoc(id: Address, n: Node, es: seq<Event>, e: Event)
    ensures NodeRun(id, n, es + [e]) == NodeStep(id, NodeRun(id, n, es), e)
    decreases es
  {
    if es == [] {
      assert ([] + [e])[1..] == [];
    } else {
      assert (es + [e])[1..] == es[1..] + [e];
      NodeRunSnoc(id, NodeStep(id, n, es[0]), es[1..], e);
    }
  }

  /** It was promoted at k and has not been deposed since. */
  ghost predicate PromotedAt(id: Address, es: seq<Event>, k: nat) {
    k < |es| && es[k] == Promote && forall j :: k < j < |es| ==> !Deposes(id, es[j])
  }

  /** A server that starts as a backup is primary exactly while a promotion of its own has not been overruled. */
  lemma {:induction false} PrimaryExactlySincePromotion(id: Address, n: Node, es: seq<Event>)
    requires n.role == Backup
    ensures NodeRun(id, n, es).role == Primary <==> exists k: nat :: PromotedAt(id, es, k)
    decreases |es|
  {
    if es != [] {
      var m, last := |es| - 1, es[|es| - 1];
      var before := es[..m];
      assert es == before + [last];
      PrimaryExactlySincePromotion(id, n, before);
      NodeRunSnoc(id, n, before, last);
      if k: nat :| PromotedAt(id, before, k) && !Deposes(id, last) {
        assert PromotedAt(id, es, k);
      }
      if last == Promote {
        assert PromotedAt(id, es, m);
      }
      if k: nat :| PromotedAt(id, es, k) && k < m {
        assert PromotedAt(id, before, k) && !Deposes(id, es[m]);
      }
    }
  }

  /** b registered at k with a server that was primary then and has not been deposed since. */
  ghost predicate RegisteredAt(id: Address, n: Node, es: seq<Event>, b: Address, k: nat) {
    && k < |es| && es[k] == Register(b) && NodeRun(id, n, es[..k]).role == Primary
    && forall j :: k < j < |es| ==> !Deposes(id, es[j])
  }

  /** Whom a server sends its updates to, and what a backup serves: nobody. */
  lemma {:induction false} BackupsAreTheRegistered(id: Address, n: Node, es: seq<Event>, b: Address)
    requires n.role == Backup && n.backups == []
    ensures b in NodeRun(id, n, es).backups <==> exists k: nat :: RegisteredAt(id, n, es, b, k)
    ensures NodeRun(id, n, es).role == Backup ==> NodeRun(id, n, es).backups == []
    decreases |es|
  {
    if es != [] {
      var m, last := |es| - 1, es[|es| - 1];
      var before := es[..m];
      assert es == before + [last];
      BackupsAreTheRegistered(id, n, before, b);
      NodeRunSnoc(id, n, before, last);
      if k: nat :| RegisteredAt(id, n, before, b, k) && !Deposes(id, last) {
        assert es[..k] == before[..k];
        assert RegisteredAt(id, n, es, b, k);
      }
      if last == Register(b) && NodeRun(id, n, before).role == Primary {
        assert RegisteredAt(id, n, es, b, m);
      }
      if k: nat :| RegisteredAt(id, n, es, b, k) && k < m {
        assert es[..k] == before[..k];
        assert RegisteredAt(id, n, before, b, k) && !Deposes(id, es[m]);
      }
    }
  }

  /** Whoever changes roles starts without backups; only that, or another's announcement, loses one. */
  lemma RoleChangeDropsBackups(id: Address, n: Node, e: Event)
    ensures NodeStep(id, n, e).role != n.role ==> NodeStep(id, n, e).backups == []
    ensures NodeStep(id, n, e).role == n.role && !Deposes(id, e) ==> n.backups <= NodeStep(id, n, e).backups
  {
  }

  /** A backup sends no replication packet, and starts no thread. */
  lemma BackupIsSilent(id: Address, n: Node, e: Event)
    requires n.role == Backup
    ensures NodeSends(n, e) == [] && NodeStep(id, n, e).jobs <= n.jobs
  {
  }

  /** The ledger of a primary moves only by its own operations, that of a backup without threads only by packets. */
  lemma WhoMovesTheBooks(id: Address, n: Node, e: Event)
    ensures n.role == Primary && !e.Discovery? && !e.Serve? ==> NodeStep(id, n, e).ledger == n.ledger
    ensures n.role == Backup && !e.Replica? && !e.Serve? ==> NodeStep(id, n, e).ledger == n.ledger
    ensures e.Serve? && e.request !in n.jobs ==> NodeStep(id, n, e) == n
  {
  }

  class Server {
    var numTransactions: int
    var totalTransferred: int
    var totalBalance: int
    var clients: seq<Account>
    var history: seq<Transaction>
    var role: Role
    var backups: seq<Address>
    /** The detached threads that have not yet processed their requests. */
    var jobs: multiset<Request>
    /** Every packet handed to the socket so far, oldest first. */
    var sent: seq<Outgoing>
    const id: Address

    function Books(): Ledger
      reads this
    {
      Ledger(clients, history, numTransactions, totalTransferred, totalBalance)
    }

    function State(): Node
      reads this
    {
      Node(role, backups, jobs, Books())
    }

    constructor (id: Address)
      ensures State() == NEWBORN && sent == [] && this.id == id
    {
      this.id := id;
      numTransactions, totalTransferred, totalBalance := 0, 0, 0;
      clients, history := [], [];
      role, backups, jobs, sent := Backup, [], multiset{}, [];
    }

    /**
     What each answer means for the request; in an exactly-once log a duplicate
     is a number already logged, and an accepted one is the next number missing.
     */
    method ValidateTransaction(s: nat, d: nat, value: int, seqn: int) returns (status: Status)
      requires s <= |clients| && d <= |clients|
      ensures status == ClientNotFound <==> s == |clients| || d == |clients|
      ensures s < |clients| && d < |clients| ==>
                var c := clients[s];
                && (status == Duplicate <==> seqn <= c.lastReq)
                && (status == OutOfSequence <==> seqn > c.lastReq + 1)
                && (status == InsufficientFunds <==> seqn == c.lastReq + 1 && Single.Short(c.balance, value))
                && (status == Success <==> seqn == c.lastReq + 1 && !Single.Short(c.balance, value))
                && (Abs(c.balance) < PRECISION && seqn == c.lastReq + 1 ==>
                      && (status == InsufficientFunds <==> c.balance < value)
                      && (status == Success <==> value <= c.balance))
      ensures ExactlyOnce(Books()) && s < |clients| && d < |clients| ==>
                var a := clients[s].address;
                && (status == Duplicate <==> seqn < 1 || InLog(history, a, seqn))
                && (status == Success ==> !InLog(history, a, seqn) && (seqn == 1 || InLog(history, a, seqn - 1)))
    {
      if s < |clients| {
        ShortExactly(clients[s].balance, value);
      }
      if s < |clients| && ExactlyOnce(Books()) {
        HasIffMember(clients, clients[s].address);
        LoggedUpToLastReq(Books(), clients[s].address, seqn);
        LoggedUpToLastReq(Books(), clients[s].address, seqn - 1);
      }
      if s == |clients| || d == |clients| { return ClientNotFound; }
      if seqn <= clients[s].lastReq { return Duplicate; }
      if seqn > clients[s].lastReq + 1 { return OutOfSequence; }
      if clients[s].balance < Round(value) { return InsufficientFunds; }
      return Success;
    }

    method ExecuteTransaction(s: nat, d: nat, value: int, seqn: int)
      requires s < |clients| && d < |clients|
      modifies this`clients
      ensures clients == Execute(Single, old(clients), s, d, value, seqn)
    {
      clients := clients[s := clients[s].(balance := Round(clients[s].balance - Round(value)))];
      clients := clients[d := clients[d].(balance := Round(clients[d].balance + Round(value)))];
      clients := clients[s := clients[s].(lastReq := seqn)];
    }

    method UpdateAndLogTransaction(source: Address, dest: Address, value: int, seqn: int)
      modifies this`numTransactions, this`totalTransferred, this`history
      ensures Books() == Record(old(Books()), Request(source, dest, value, seqn))
    {
      numTransactions := numTransactions + 1;
      totalTransferred := totalTransferred + value;
      history := history + [Transaction(numTransactions, source, dest, value, seqn)];
    }

    method HandleTransactionLogic(source: Address, dest: Address, value: int, seqn: int)
      returns (status: Status, balance: int)
      modifies this`clients, this`numTransactions, this`totalTransferred, this`history
      ensures var r := Request(source, dest, value, seqn);
              && Books() == TransferEffect(Single, old(Books()), r)
              && status == ReplyOf(Single, old(Books()), r).status
              && balance == ReplyOf(Single, old(Books()), r).balance
    {
      var s := Find(clients, source);
      var d := Find(clients, dest);
      status := ValidateTransaction(s, d, value, seqn);
      if status == Success {
        ExecuteTransaction(s, d, value, seqn);
        UpdateAndLogTransaction(source, dest, value, seqn);
        return status, clients[s].balance;
      }
      if status == Duplicate || status == OutOfSequence {
        return status, clients[s].balance;
      }
      balance := if s == |clients| then -1 else clients[s].balance;
    }

    /** Sends one packet to every backup. */
    method Propagate(p: Packet)
      modifies this`sent
      ensures sent == old(sent) + ToAll(backups, p)
    {
      var i := 0;
      while i < |backups|
        invariant i <= |backups|
        invariant sent == old(sent) + ToAll(backups, p)[..i]
      {
        sent := sent + [Outgoing(backups[i], p)];
        i := i + 1;
      }
      assert ToAll(backups, p)[..i] == ToAll(backups, p);
    }

    method ProcessTransaction(source: Address, dest: Address, value: int, seqn: int)
      returns (status: Status, balance: int, lastReq: int, notifies: bool)
      modifies this
      ensures var r := Request(source, dest, value, seqn);
              && State() == old(State()).(ledger := TransferEffect(Single, old(Books()), r))
              && sent == old(sent) + (if role == Primary then Broadcast(backups, Emit(Single, old(Books()), Transfer(r))) else [])
              && Reply(status, balance, lastReq) == ReplyOf(Single, old(Books()), r)
      ensures Books() != old(Books()) ==> notifies
      ensures notifies <==> status == Success || status == Duplicate || status == OutOfSequence
    {
      status, balance := HandleTransactionLogic(source, dest, value, seqn);
      if status == Success && role == Primary {
        var p := StateUpdate(history[|history| - 1],
                             source, clients[Find(clients, source)].balance,
                             dest, clients[Find(clients, dest)].balance);
        Propagate(p);
        assert Emit(Single, old(Books()), Transfer(Request(source, dest, value, seqn))) == [p];
        BroadcastOne(backups, p);
      }
      notifies := status == Success || status == Duplicate || status == OutOfSequence;
      var s := Find(clients, source);
      lastReq := if s == |clients| then 0 else clients[s].lastReq;
    }

    /** A request packet: a primary starts a thread for it, a backup ignores it. */
    method HandleTransactionRequest(r: Request)
      modifies this`jobs
      ensures jobs == old(jobs) + if role == Primary then multiset{r} else multiset{}
    {
      if role == Primary {
        jobs := jobs + multiset{r};
      }
    }

    method WasClientAdded(a: Address) returns (added: bool)
      modifies this
      ensures added <==> !Has(old(clients), a)
      ensures State() == old(State()).(ledger := JoinEffect(Single, old(Books()), a))
      ensures sent == old(sent) + if role == Primary then Broadcast(backups, Emit(Single, old(Books()), Join(a))) else []
    {
      var it := Find(clients, a);
      if it == |clients| {
        clients := clients + [Account(a, 0, INITIAL_BALANCE)];
        totalBalance := Round(Round(totalBalance) + INITIAL_BALANCE);
        if role == Primary {
          var p := ClientUpdate(a, INITIAL_BALANCE, 0);
          Propagate(p);
          BroadcastOne(backups, p);
        }
        return true;
      }
      return false;
    }

    /** Find the account, or append a new one and find that. */
    method FindOrAdd(a: Address) returns (i: nat)
      modifies this`clients
      ensures clients == Ensure(old(clients), a) && i == Find(clients, a)
    {
      i := Find(clients, a);
      if i == |clients| {
        clients := clients + [NewAccount(a)];
        i := Find(clients, a);
      }
    }

    method WriteAccounts(s: nat, d: nat, sourceBalance: int, destBalance: int, seqn: int)
      requires s < |clients| && d < |clients|
      modifies this`clients
      ensures clients == Write(old(clients), s, d, sourceBalance, destBalance, seqn)
    {
      clients := clients[s := clients[s].(balance := sourceBalance)];
      clients := clients[d := clients[d].(balance := destBalance)];
      clients := clients[s := clients[s].(lastReq := seqn)];
    }

    method AppendEntry(tx: Transaction)
      modifies this`history, this`numTransactions, this`totalTransferred
      ensures Books() == Append(old(Books()), tx)
    {
      history := history + [tx];
      numTransactions := numTransactions + 1;
      totalTransferred := totalTransferred + tx.value;
    }

    /** The source's index is found before the destination may be appended. */
    method HandleStateUpdate(p: Packet)
      requires p.StateUpdate?
      modifies this
      ensures State() == old(State()).(ledger := Receive(Single, old(Books()), p)) && sent == old(sent)
    {
      var s := FindOrAdd(p.source);
      var d := FindOrAdd(p.dest);
      WriteAccounts(s, d, p.sourceBalance, p.destBalance, p.tx.seqn);
      AppendEntry(p.tx);
    }

    method HandleClientUpdate(p: Packet)
      requires p.ClientUpdate?
      modifies this
      ensures State() == old(State()).(ledger := Receive(Single, old(Books()), p)) && sent == old(sent)
    {
      var it := Find(clients, p.address);
      if it == |clients| {
        clients := clients + [Account(p.address, p.lastReq, p.balance)];
        totalBalance := Round(Round(totalBalance) + p.balance);
      }
    }

    method HandleHistoryEntry(p: Packet)
      requires p.HistoryEntry?
      modifies this
      ensures State() == old(State()).(ledger := Receive(Single, old(Books()), p)) && sent == old(sent)
    {
      AppendEntry(p.entry);
    }

    method HandleReplica(p: Packet)
      modifies this
      ensures State() == old(State()).(ledger := Receive(Single, old(Books()), p)) && sent == old(sent)
    {
      match p {
        case ClientUpdate(_, _, _) => HandleClientUpdate(p);
        case HistoryEntry(_) => HandleHistoryEntry(p);
        case StateUpdate(_, _, _, _, _) => HandleStateUpdate(p);
      }
    }

    /** Copies the books, subscribes the backup, then sends the copy packet by packet. */
    method RegisterBackup(b: Address)
      modifies this`backups, this`sent
      ensures backups == old(backups) + [b]
      ensures sent == old(sent) + ToOne(b, Snapshot(old(Books())))
    {
      var clientSnapshot, historySnapshot := clients, history;
      backups := backups + [b];
      ghost var all := ToOne(b, Snapshot(old(Books())));
      var i := 0;
      while i < |clientSnapshot|
        invariant i <= |clientSnapshot| && backups == old(backups) + [b]
        invariant sent == old(sent) + all[..i]
      {
        var c := clientSnapshot[i];
        sent := sent + [Outgoing(b, ClientUpdate(c.address, c.balance, c.lastReq))];
        i := i + 1;
      }
      i := 0;
      while i < |historySnapshot|
        invariant i <= |historySnapshot| && backups == old(backups) + [b]
        invariant sent == old(sent) + all[..|clientSnapshot| + i]
      {
        sent := sent + [Outgoing(b, HistoryEntry(historySnapshot[i]))];
        i := i + 1;
      }
      assert all[..|clientSnapshot| + i] == all;
    }

    method PromoteToPrimary()
      modifies this`role, this`backups
      ensures State() == NodeStep(id, old(State()), Promote)
    {
      if role == Backup {
        role := Primary;
        backups := [];
      }
    }

    method HandleNewPrimaryAnnouncement(leader: Address)
      modifies this`role, this`backups
      ensures State() == NodeStep(id, old(State()), Announcement(leader))
    {
      if leader != id {
        role := Backup;
        backups := [];
      }
    }

    method HandleDiscoveryPacket(a: Address)
      modifies this
      ensures State() == NodeStep(id, old(State()), Discovery(a))
      ensures sent == old(sent) + NodeSends(old(State()), Discovery(a))
    {
      if role == Primary {
        var _ := WasClientAdded(a);
      }
    }

    /** A detached thread processes its request. */
    method RunThread(r: Request)
      modifies this
      ensures State() == NodeStep(id, old(State()), Serve(r))
      ensures sent == old(sent) + NodeSends(old(State()), Serve(r))
    {
      if r in jobs {
        jobs := jobs - multiset{r};
        var _, _, _, _ := ProcessTransaction(r.source, r.dest, r.value, r.seqn);
      }
    }

    /** The receive loop's dispatch, with its role guards. */
    method Dispatch(e: Event)
      modifies this
      ensures State() == NodeStep(id, old(State()), e)
      ensures sent == old(sent) + NodeSends(old(State()), e)
    {
      match e {
        case Discovery(a) => HandleDiscoveryPacket(a);
        case Asked(r) => HandleTransactionRequest(r);
        case Serve(r) => RunThread(r);
        case Register(b) => if role == Primary { RegisterBackup(b); }
        case Replica(p) =>
          if role == Backup { HandleReplica(p); }
        case Promote => PromoteToPrimary();
        case Announcement(leader) => HandleNewPrimaryAnnouncement(leader);
      }
    }
  }
}
