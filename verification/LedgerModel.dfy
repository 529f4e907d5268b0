/**
 The bank ledger as values: accounts, the transfer log, the packets a primary
 sends to its backups, and the effect of each request and packet on a ledger.
 The imperative server in Server.dfy is specified by these functions.
 */
module LedgerModel {
  import opened Binary32

  /** An IPv4 address; the textual form the program stores determines it. */
  type Address = nat

  const INITIAL_BALANCE: int := 1000

  datatype Account = Account(address: Address, lastReq: int, balance: int)

  datatype Transaction = Transaction(id: int, source: Address, dest: Address, value: int, seqn: int)

  datatype Ledger = Ledger(
    clients: seq<Account>,
    history: seq<Transaction>,
    numTransactions: int,
    totalTransferred: int,
    totalBalance: int)

  const EMPTY: Ledger := Ledger([], [], 0, 0, 0)

  datatype Status = Success | ClientNotFound | Duplicate | InsufficientFunds | OutOfSequence

  datatype Request = Request(source: Address, dest: Address, value: int, seqn: int)

  datatype Reply = Reply(status: Status, balance: int, lastReq: int)

  /** What a primary does under the writer lock on behalf of its clients. */
  datatype Op = Transfer(request: Request) | Join(address: Address)

  /** Replication packets, from a primary to a backup. */
  datatype Packet =
    | ClientUpdate(address: Address, balance: int, lastReq: int)
    | HistoryEntry(entry: Transaction)
    | StateUpdate(tx: Transaction, source: Address, sourceBalance: int, dest: Address, destBalance: int)

  // ----- accounts -----

  function NewAccount(a: Address): Account {
    Account(a, 0, INITIAL_BALANCE)
  }

  /** Index of the first account with address a, or |cs| (the end iterator). */
  function Find(cs: seq<Account>, a: Address): (i: nat)
    ensures i <= |cs|
    ensures i < |cs| ==> cs[i].address == a
    ensures forall j :: 0 <= j < i ==> cs[j].address != a
  {
    if cs == [] || cs[0].address == a then 0 else Find(cs[1..], a) + 1
  }

  predicate Has(cs: seq<Account>, a: Address) {
    Find(cs, a) < |cs|
  }

  function Get(cs: seq<Account>, a: Address): Account
    requires Has(cs, a)
  {
    cs[Find(cs, a)]
  }

  ghost predicate Unique(cs: seq<Account>) {
    forall i, j :: 0 <= i < j < |cs| ==> cs[i].address != cs[j].address
  }

  lemma FindIs(cs: seq<Account>, a: Address, i: nat)
    requires i <= |cs| && (i < |cs| ==> cs[i].address == a)
    requires forall j :: 0 <= j < i ==> cs[j].address != a
    ensures Find(cs, a) == i
  {
  }

  lemma HasIffMember(cs: seq<Account>, a: Address)
    ensures Has(cs, a) <==> exists i :: 0 <= i < |cs| && cs[i].address == a
    ensures forall i :: 0 <= i < |cs| && Unique(cs) ==> Find(cs, cs[i].address) == i
  {
    if Has(cs, a) {
      assert cs[Find(cs, a)].address == a;
    }
  }

  /** Replacing an account by one with the same address moves no account. */
  lemma FindAfterUpdate(cs: seq<Account>, i: nat, c: Account)
    requires i < |cs| && c.address == cs[i].address
    ensures forall a :: Find(cs[i := c], a) == Find(cs, a)
    ensures Unique(cs) ==> Unique(cs[i := c])
  {
    forall a ensures Find(cs[i := c], a) == Find(cs, a) {
      FindIs(cs[i := c], a, Find(cs, a));
    }
  }

  lemma FindAfterAppend(cs: seq<Account>, c: Account)
    ensures forall a :: Has(cs, a) ==> Find(cs + [c], a) == Find(cs, a)
    ensures forall a :: !Has(cs, a) ==> Find(cs + [c], a) == if a == c.address then |cs| else |cs| + 1
    ensures Unique(cs) && !Has(cs, c.address) ==> Unique(cs + [c])
  {
    forall a
      ensures Has(cs, a) ==> Find(cs + [c], a) == Find(cs, a)
      ensures !Has(cs, a) ==> Find(cs + [c], a) == if a == c.address then |cs| else |cs| + 1
    {
      FindIs(cs + [c], a, if Has(cs, a) || a == c.address then Find(cs, a) else |cs| + 1);
    }
  }

  // ----- the primary: transfers -----

  function Validate(m: Arithmetic, cs: seq<Account>, s: nat, d: nat, value: int, seqn: int): Status
    requires s <= |cs| && d <= |cs|
  {
    if s == |cs| || d == |cs| then ClientNotFound
    else if seqn <= cs[s].lastReq then Duplicate
    else if seqn > cs[s].lastReq + 1 then OutOfSequence
    else if m.Short(cs[s].balance, value) then InsufficientFunds
    else Success
  }

  function SetBalance(cs: seq<Account>, i: nat, balance: int): seq<Account>
    requires i < |cs|
  {
    cs[i := cs[i].(balance := balance)]
  }

  function SetLastReq(cs: seq<Account>, i: nat, seqn: int): seq<Account>
    requires i < |cs|
  {
    cs[i := cs[i].(lastReq := seqn)]
  }

  /** Three separate writes; s and d may be the same account. */
  function Write(cs: seq<Account>, s: nat, d: nat, sourceBalance: int, destBalance: int, seqn: int): (r: seq<Account>)
    requires s < |cs| && d < |cs|
    ensures |r| == |cs|
    ensures forall a :: Find(r, a) == Find(cs, a)
    ensures forall i :: 0 <= i < |cs| && i != s && i != d ==> r[i] == cs[i]
    ensures r[s].lastReq == seqn && r[d].balance == destBalance
    ensures s != d ==> r[s].balance == sourceBalance && r[d].lastReq == cs[d].lastReq
    ensures Unique(cs) ==> Unique(r)
  {
    var debited := SetBalance(cs, s, sourceBalance);
    FindAfterUpdate(cs, s, debited[s]);
    var credited := SetBalance(debited, d, destBalance);
    FindAfterUpdate(debited, d, credited[d]);
    FindAfterUpdate(credited, s, credited[s].(lastReq := seqn));
    SetLastReq(credited, s, seqn)
  }

  function Execute(m: Arithmetic, cs: seq<Account>, s: nat, d: nat, value: int, seqn: int): (r: seq<Account>)
    requires s < |cs| && d < |cs|
    ensures |r| == |cs|
    ensures forall a :: Find(r, a) == Find(cs, a)
  {
    var debited := m.Debit(cs[s].balance, value);
    var credited := m.Credit(SetBalance(cs, s, debited)[d].balance, value);
    Write(cs, s, d, debited, credited, seqn)
  }

  function Record(l: Ledger, r: Request): Ledger {
    l.(numTransactions := l.numTransactions + 1,
       totalTransferred := l.totalTransferred + r.value,
       history := l.history + [Transaction(l.numTransactions + 1, r.source, r.dest, r.value, r.seqn)])
  }

  function StatusOf(m: Arithmetic, l: Ledger, r: Request): Status {
    Validate(m, l.clients, Find(l.clients, r.source), Find(l.clients, r.dest), r.value, r.seqn)
  }

  function TransferEffect(m: Arithmetic, l: Ledger, r: Request): Ledger {
    if StatusOf(m, l, r) == Success then
      var cs := Execute(m, l.clients, Find(l.clients, r.source), Find(l.clients, r.dest), r.value, r.seqn);
      Record(l.(clients := cs), r)
    else l
  }

  /** The answer computed for the client, read from the ledger after the request. */
  function ReplyOf(m: Arithmetic, l: Ledger, r: Request): Reply {
    var after := TransferEffect(m, l, r);
    if Has(after.clients, r.source)
    then Reply(StatusOf(m, l, r), Get(after.clients, r.source).balance, Get(after.clients, r.source).lastReq)
    else Reply(StatusOf(m, l, r), -1, 0)
  }

  // ----- the primary: new clients -----

  function JoinEffect(m: Arithmetic, l: Ledger, a: Address): Ledger {
    if Has(l.clients, a) then l
    else l.(clients := l.clients + [NewAccount(a)],
            totalBalance := m.AddTotal(l.totalBalance, INITIAL_BALANCE))
  }

  function Step(m: Arithmetic, l: Ledger, op: Op): Ledger {
    match op
    case Transfer(r) => TransferEffect(m, l, r)
    case Join(a) => JoinEffect(m, l, a)
  }

  /** The packets a primary sends to each backup for one operation. */
  function Emit(m: Arithmetic, l: Ledger, op: Op): seq<Packet> {
    match op
    case Transfer(r) =>
      if StatusOf(m, l, r) == Success then [TransferPacket(TransferEffect(m, l, r), r.source, r.dest)] else []
    case Join(a) =>
      if Has(l.clients, a) then [] else [ClientUpdate(a, INITIAL_BALANCE, 0)]
  }

  function TransferPacket(l: Ledger, source: Address, dest: Address): Packet
    requires l.history != [] && Has(l.clients, source) && Has(l.clients, dest)
  {
    StateUpdate(l.history[|l.history| - 1],
                source, Get(l.clients, source).balance,
                dest, Get(l.clients, dest).balance)
  }

  function Run(m: Arithmetic, l: Ledger, ops: seq<Op>): Ledger
    decreases ops
  {
    if ops == [] then l else Run(m, Step(m, l, ops[0]), ops[1..])
  }

  function EmitAll(m: Arithmetic, l: Ledger, ops: seq<Op>): seq<Packet>
    decreases ops
  {
    if ops == [] then [] else Emit(m, l, ops[0]) + EmitAll(m, Step(m, l, ops[0]), ops[1..])
  }

  // ----- the backup -----

  function Ensure(cs: seq<Account>, a: Address): (r: seq<Account>)
    ensures |cs| <= |r| && r[..|cs|] == cs
    ensures Has(r, a)
  {
    if Has(cs, a) then cs
    else
      FindAfterAppend(cs, NewAccount(a));
      cs + [NewAccount(a)]
  }

  /** The clients after a STATE_UPDATE: absolute balances, accounts by index. */
  function Overwrite(cs: seq<Account>, p: Packet): seq<Account>
    requires p.StateUpdate?
  {
    var withSource := Ensure(cs, p.source);
    var s := Find(withSource, p.source);
    var withBoth := Ensure(withSource, p.dest);
    var d := Find(withBoth, p.dest);
    Write(withBoth, s, d, p.sourceBalance, p.destBalance, p.tx.seqn)
  }

  function Append(l: Ledger, tx: Transaction): Ledger {
    l.(history := l.history + [tx],
       numTransactions := l.numTransactions + 1,
       totalTransferred := l.totalTransferred + tx.value)
  }

  function Receive(m: Arithmetic, l: Ledger, p: Packet): Ledger {
    match p
    case ClientUpdate(a, balance, lastReq) =>
      if Has(l.clients, a) then l
      else l.(clients := l.clients + [Account(a, lastReq, balance)],
              totalBalance := m.AddTotal(l.totalBalance, balance))
    case HistoryEntry(tx) => Append(l, tx)
    case StateUpdate(tx, _, _, _, _) => Append(l.(clients := Overwrite(l.clients, p)), tx)
  }

  function ReceiveAll(m: Arithmetic, l: Ledger, ps: seq<Packet>): Ledger
    decreases ps
  {
    if ps == [] then l else ReceiveAll(m, Receive(m, l, ps[0]), ps[1..])
  }

  // ----- the snapshot sent to a new backup -----

  function ClientPackets(cs: seq<Account>): (ps: seq<Packet>)
    ensures |ps| == |cs|
    ensures forall i :: 0 <= i < |cs| ==> ps[i] == ClientUpdate(cs[i].address, cs[i].balance, cs[i].lastReq)
  {
    seq(|cs|, i requires 0 <= i < |cs| => ClientUpdate(cs[i].address, cs[i].balance, cs[i].lastReq))
  }

  function HistoryPackets(h: seq<Transaction>): (ps: seq<Packet>)
    ensures |ps| == |h|
    ensures forall i :: 0 <= i < |h| ==> ps[i] == HistoryEntry(h[i])
  {
    seq(|h|, i requires 0 <= i < |h| => HistoryEntry(h[i]))
  }

  function Snapshot(l: Ledger): seq<Packet> {
    ClientPackets(l.clients) + HistoryPackets(l.history)
  }

  /** Accounts first, then the history, each in its order. */
  lemma SnapshotOrder(l: Ledger)
    ensures |Snapshot(l)| == |l.clients| + |l.history|
    ensures forall i :: 0 <= i < |l.clients| ==>
              Snapshot(l)[i] == ClientUpdate(l.clients[i].address, l.clients[i].balance, l.clients[i].lastReq)
    ensures forall i :: 0 <= i < |l.history| ==> Snapshot(l)[|l.clients| + i] == HistoryEntry(l.history[i])
  {
  }
}
