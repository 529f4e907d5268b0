/**
 The bully-style election and the life of a server's failure detector. Servers
 crash and never come back; packets may be lost, duplicated and reordered. The
 only synchrony is in the election's waiting time: it ends after the packets of
 that election have been handled by the servers still alive.
 */
module Election {
  type Id = nat

  datatype Role = Primary | Backup

  /** Where a failure-detector thread is. */
  datatype Activity =
    | Starting    // sleeping before the first election
    | Monitoring  // waiting for heartbeats
    | Preparing   // election_in_progress raised, election_lost not yet reset
    | Electing    // ELECTION sent, waiting
    | Deciding    // election_in_progress lowered, election_lost not yet read

  datatype Server = Server(
    role: Role,
    threads: seq<Activity>,
    inProgress: bool,
    lost: bool,
    primaryAlive: bool,
    round: nat,          // elections begun so far
    promotions: nat,
    senders: nat)        // heartbeat senders started so far

  /** Packets carry the round of the election they belong to, for the proof only. */
  datatype Message =
    | ElectionMsg(from: Id, to: Id, round: nat)
    | AnswerMsg(from: Id, to: Id, round: nat)
    | AnnounceMsg(from: Id, to: Id)

  /** The servers alive, every packet ever sent, and those handled at least once. */
  datatype Cluster = Cluster(servers: map<Id, Server>, net: set<Message>, handled: set<Message>)

  datatype Event =
    | Crash(i: Id)
    | HeartbeatArrives(i: Id)
    | Receive(msg: Message)
    | MonitorRenews(i: Id, k: nat)
    | MonitorTimesOut(i: Id, k: nat)
    | FirstElection(i: Id, k: nat)
    | SendElection(i: Id, k: nat)
    | WaitEnds(i: Id, k: nat)
    | Decide(i: Id, k: nat)

  predicate ThreadAt(c: Cluster, i: Id, k: nat, a: Activity) {
    i in c.servers && k < |c.servers[i].threads| && c.servers[i].threads[k] == a
  }

  /** The election's packets have been handled: ELECTION by each server alive, then its answer. */
  ghost predicate RoundHandled(c: Cluster, i: Id)
    requires i in c.servers
  {
    var r := c.servers[i].round;
    forall j :: j in c.servers ==>
      && ElectionMsg(i, j, r) in c.handled
      && (AnswerMsg(j, i, r) in c.net ==> AnswerMsg(j, i, r) in c.handled)
  }

  /** With timely set, the waiting time outlasts the election's packets. */
  ghost predicate May(c: Cluster, e: Event, timely: bool) {
    match e
    case Crash(i) => i in c.servers
    case HeartbeatArrives(i) => i in c.servers
    case Receive(msg) => msg in c.net && msg.to in c.servers
    case MonitorRenews(i, k) => ThreadAt(c, i, k, Monitoring) && c.servers[i].primaryAlive
    case MonitorTimesOut(i, k) => ThreadAt(c, i, k, Monitoring) && !c.servers[i].primaryAlive
    case FirstElection(i, k) => ThreadAt(c, i, k, Starting)
    case SendElection(i, k) => ThreadAt(c, i, k, Preparing)
    case WaitEnds(i, k) => ThreadAt(c, i, k, Electing) && (timely ==> RoundHandled(c, i))
    case Decide(i, k) => ThreadAt(c, i, k, Deciding)
  }

  function With(c: Cluster, i: Id, s: Server): Cluster {
    c.(servers := c.servers[i := s])
  }

  /** What a broadcast puts on the way to those who can hear it. */
  function ElectionTo(hearers: set<Id>, i: Id, round: nat): set<Message> {
    set j | j in hearers :: ElectionMsg(i, j, round)
  }

  function AnnounceTo(hearers: set<Id>, i: Id): set<Message> {
    set j | j in hearers :: AnnounceMsg(i, j)
  }

  function WithoutThread(s: Server, k: nat): Server
    requires k < |s.threads|
  {
    s.(threads := s.threads[..k] + s.threads[k + 1..])
  }

  /** What a server does with a packet. */
  function Handle(s: Server, msg: Message): Server {
    match msg
    case ElectionMsg(from, to, _) => if from > to && s.inProgress then s.(lost := true) else s
    case AnswerMsg(from, to, _) => if from > to && s.inProgress then s.(lost := true) else s
    case AnnounceMsg(from, to) =>
      var told := if s.inProgress then s.(lost := true) else s;
      var awake := if s.role == Backup then told.(primaryAlive := true) else told;
      if from != to then awake.(role := Backup) else awake
  }

  function Replies(msg: Message): set<Message> {
    if msg.ElectionMsg? && msg.from <= msg.to then {AnswerMsg(msg.to, msg.from, msg.round)} else {}
  }

  // The four cuts of an election, as seen by the server running it.

  function Prepared(s: Server, k: nat): Server
    requires k < |s.threads|
  {
    s.(inProgress := true, threads := s.threads[k := Preparing])
  }

  function Begun(s: Server, k: nat): Server
    requires k < |s.threads|
  {
    s.(lost := false, round := s.round + 1, threads := s.threads[k := Electing])
  }

  function Waited(s: Server, k: nat): Server
    requires k < |s.threads|
  {
    s.(inProgress := false, threads := s.threads[k := Deciding])
  }

  function Decided(s: Server, k: nat): Server
    requires k < |s.threads|
  {
    var ended := WithoutThread(s, k);
    if s.lost then ended.(primaryAlive := false, threads := ended.threads + [Monitoring])
    else if s.role == Backup then
      ended.(role := Primary, promotions := s.promotions + 1, senders := s.senders + 1)
    else ended
  }

  function Take(c: Cluster, e: Event): Cluster
    requires May(c, e, false)
  {
    match e
    case Crash(i) => c.(servers := c.servers - {i})
    case HeartbeatArrives(i) =>
      var s := c.servers[i];
      With(c, i, if s.role == Backup then s.(primaryAlive := true) else s)
    case Receive(msg) =>
      With(c, msg.to, Handle(c.servers[msg.to], msg)).(net := c.net + Replies(msg), handled := c.handled + {msg})
    case MonitorRenews(i, k) =>
      var s := c.servers[i];
      With(c, i, if s.role == Backup then s.(primaryAlive := false) else WithoutThread(s, k))
    case MonitorTimesOut(i, k) => With(c, i, Prepared(c.servers[i], k))
    case FirstElection(i, k) => With(c, i, Prepared(c.servers[i], k))
    case SendElection(i, k) =>
      var s := c.servers[i];
      With(c, i, Begun(s, k)).(net := c.net + ElectionTo(c.servers.Keys, i, s.round + 1))
    case WaitEnds(i, k) => With(c, i, Waited(c.servers[i], k))
    case Decide(i, k) =>
      var s := c.servers[i];
      var announced := if !s.lost && s.role == Backup then AnnounceTo(c.servers.Keys, i) else {};
      With(c, i, Decided(s, k)).(net := c.net + announced)
  }

  /** The server's election code, updating its fields in place. */
  class ElectionServer {
    const id: Id
    var role: Role
    var threads: seq<Activity>
    var inProgress: bool
    var lost: bool
    var primaryAlive: bool
    var round: nat
    var promotions: nat
    var senders: nat
    var backups: seq<Id>

    function State(): Server
      reads this
    {
      Server(role, threads, inProgress, lost, primaryAlive, round, promotions, senders)
    }

    constructor (id: Id, primaryFound: bool)
      ensures Newborn(State()) && this.id == id
      ensures threads == [if primaryFound then Monitoring else Starting] && backups == []
    {
      this.id := id;
      role, inProgress, lost, primaryAlive := Backup, false, false, false;
      threads := [if primaryFound then Monitoring else Starting];
      round, promotions, senders, backups := 0, 0, 0, [];
    }

    method HandleElectionPacket(msg: Message) returns (answers: set<Message>)
      requires msg.ElectionMsg? && msg.to == id
      modifies this`lost
      ensures State() == Handle(old(State()), msg) && answers == Replies(msg)
    {
      answers := {};
      if msg.from > id {
        if inProgress {
          lost := true;
        }
      } else {
        answers := {AnswerMsg(id, msg.from, msg.round)};
      }
    }

    method HandleElectionAnswerPacket(msg: Message)
      requires msg.AnswerMsg? && msg.to == id
      modifies this`lost
      ensures State() == Handle(old(State()), msg)
    {
      if inProgress && msg.from > id {
        lost := true;
      }
    }

    /** A server told of another primary serves no backups any more and registers with that primary. */
    method HandleNewPrimaryAnnouncementPacket(msg: Message) returns (registersWith: set<Id>)
      requires msg.AnnounceMsg? && msg.to == id
      modifies this`lost, this`primaryAlive, this`role, this`backups
      ensures State() == Handle(old(State()), msg)
      ensures registersWith == (if msg.from != id then {msg.from} else {})
      ensures backups == if msg.from != id then [] else old(backups)
    {
      if inProgress {
        lost := true;
      }
      if role == Backup {
        primaryAlive := true;
      }
      registersWith := {};
      if msg.from != id {
        role := Backup;
        backups := [];
        registersWith := {msg.from};
      }
    }

    /** Heartbeats keep a backup's monitor quiet. */
    method HandleHeartbeatPacket()
      modifies this`primaryAlive
      ensures primaryAlive <==> old(primaryAlive) || role == Backup
    {
      if role == Backup {
        primaryAlive := true;
      }
    }

    /** startElection up to the broadcast; thread k runs it, and hearers are those the broadcast reaches. */
    method StartElection(k: nat, hearers: set<Id>) returns (elections: set<Message>)
      requires k < |threads|
      modifies this`inProgress, this`lost, this`round, this`threads
      ensures State() == Begun(Prepared(old(State()), k), k)
      ensures elections == set j | j in hearers :: ElectionMsg(id, j, round)
    {
      inProgress := true;
      lost := false;
      round := round + 1;
      threads := threads[k := Electing];
      elections := ElectionTo(hearers, id, round);
    }

    /** startElection after the sleep: promote, or monitor again. */
    method FinishElection(k: nat, hearers: set<Id>) returns (promoted: bool, announcements: set<Message>)
      requires k < |threads|
      modifies this
      ensures State() == Decided(Waited(old(State()), k), k)
      ensures promoted <==> !old(lost) && old(role) == Backup
      ensures backups == if promoted then [] else old(backups)
      ensures announcements == if promoted then (set j | j in hearers :: AnnounceMsg(id, j)) else {}
    {
      inProgress := false;
      threads := threads[..k] + threads[k + 1..];
      promoted, announcements := false, {};
      if !lost {
        promoted, announcements := PromoteToPrimary(hearers);
      } else {
        StartHeartbeatMonitor();
      }
    }

    method PromoteToPrimary(hearers: set<Id>) returns (promoted: bool, announcements: set<Message>)
      modifies this`role, this`promotions, this`senders, this`backups
      ensures promoted <==> old(role) == Backup
      ensures backups == if promoted then [] else old(backups)
      ensures role == Primary
      ensures announcements == if promoted then (set j | j in hearers :: AnnounceMsg(id, j)) else {}
      ensures promotions == old(promotions) + (if promoted then 1 else 0)
      ensures senders == old(senders) + (if promoted then 1 else 0)
    {
      promoted, announcements := role == Backup, {};
      if role == Backup {
        role := Primary;
        backups := [];
        promotions := promotions + 1;
        senders := senders + 1;
        announcements := AnnounceTo(hearers, id);
      }
    }

    method StartHeartbeatMonitor()
      modifies this`primaryAlive, this`threads
      ensures threads == old(threads) + [Monitoring] && !primaryAlive
    {
      threads := threads + [Monitoring];
      primaryAlive := false;
    }
  }

  // ----- the life of a server -----

  predicate Doing(s: Server, a: Activity) {
    |s.threads| == 1 && s.threads[0] == a
  }

  /**
   A server never promoted is a backup with exactly one failure-detector
   thread; a promoted one has none, so it is never promoted again.
   */
  predicate OneLife(s: Server) {
    && s.promotions == s.senders <= 1
    && (s.promotions == 0 ==> s.role == Backup && |s.threads| == 1)
    && (s.promotions == 1 ==> s.threads == [])
    && (s.inProgress <==> Doing(s, Preparing) || Doing(s, Electing))
  }

  ghost predicate Lives(c: Cluster) {
    forall i :: i in c.servers ==> OneLife(c.servers[i])
  }

  /** The server a step runs on; every other live server is left alone. */
  function Actor(e: Event): Id {
    if e.Receive? then e.msg.to else e.i
  }

  lemma OthersUntouched(c: Cluster, e: Event, i: Id)
    requires May(c, e, false) && i != Actor(e)
    ensures i in Take(c, e).servers <==> i in c.servers
    ensures i in c.servers ==> Take(c, e).servers[i] == c.servers[i]
  {
  }

  lemma ActorKeepsLife(c: Cluster, e: Event)
    requires May(c, e, false) && OneLife(c.servers[Actor(e)]) && !e.Crash?
    ensures OneLife(Take(c, e).servers[Actor(e)])
  {
    var s := c.servers[Actor(e)];
    if !e.HeartbeatArrives? && !e.Receive? {
      assert e.k == 0 && s.threads[..e.k] + s.threads[e.k + 1..] == [];
    }
  }

  lemma StepKeepsLives(c: Cluster, e: Event)
    requires Lives(c) && May(c, e, false)
    ensures Lives(Take(c, e))
  {
    forall i | i in Take(c, e).servers ensures OneLife(Take(c, e).servers[i]) {
      if i == Actor(e) {
        ActorKeepsLife(c, e);
      } else {
        OthersUntouched(c, e, i);
      }
    }
  }

  // ----- who may promote itself -----

  /** No live server has a greater identity. */
  predicate Greatest(c: Cluster, i: Id) {
    forall j :: j in c.servers ==> j <= i
  }

  /** Every live primary has the greatest identity. */
  ghost predicate Settled(c: Cluster) {
    forall i :: i in c.servers && c.servers[i].role == Primary ==> Greatest(c, i)
  }

  /** And so it stays whichever finished election is decided next. */
  ghost predicate Sure(c: Cluster) {
    && Settled(c)
    && forall i, k :: May(c, Decide(i, k), false) ==> Settled(Take(c, Decide(i, k)))
  }

  predicate Begins(e: Event, i: Id) {
    e.SendElection? && e.i == i
  }

  /** i is handed a packet that stops an election: from a greater server, or any announcement. */
  predicate Stops(e: Event, i: Id) {
    e.Receive? && e.msg.to == i && (e.msg.AnnounceMsg? || e.msg.from > i)
  }

  /** Since i last sent out an ELECTION it has been handed a packet that stops it. */
  predicate Stopped(past: seq<Event>, i: Id) {
    past != [] &&
    var last := past[|past| - 1];
    Stops(last, i) || (!Begins(last, i) && Stopped(past[..|past| - 1], i))
  }

  /** A wait that ends has been handed such a packet, unless its server is the greatest alive. */
  ghost predicate Heard(c: Cluster, past: seq<Event>, e: Event) {
    e.WaitEnds? && e.i in c.servers ==> Stopped(past, e.i) || Greatest(c, e.i)
  }

  /** While a server waits, its flag remembers just the packets handed to it since it began. */
  ghost predicate Remembers(c: Cluster, past: seq<Event>) {
    forall i :: i in c.servers && Doing(c.servers[i], Electing) ==> (c.servers[i].lost <==> Stopped(past, i))
  }

  predicate Ends(e: Event, i: Id) {
    e.WaitEnds? && e.i == i
  }

  /** When i's last wait ended it had been handed a stopping packet since it began. */
  predicate StoppedInTime(past: seq<Event>, i: Id) {
    past != [] &&
    var before := past[..|past| - 1];
    if Ends(past[|past| - 1], i) then Stopped(before, i) else StoppedInTime(before, i)
  }

  /** What comes after the wait no longer counts. */
  ghost predicate RemembersInTime(c: Cluster, past: seq<Event>) {
    forall i :: i in c.servers && Doing(c.servers[i], Deciding) ==> (c.servers[i].lost <==> StoppedInTime(past, i))
  }

  /** How a server comes to wait, or goes on waiting. */
  lemma ElectingAfter(c: Cluster, e: Event, i: Id)
    requires Lives(c) && May(c, e, false) && i in Take(c, e).servers && Doing(Take(c, e).servers[i], Electing)
    ensures var lost := Take(c, e).servers[i].lost;
            if Begins(e, i) then !lost
            else i in c.servers && Doing(c.servers[i], Electing) && (lost <==> c.servers[i].lost || Stops(e, i))
  {
    if i == Actor(e) {
      assert OneLife(c.servers[i]);
    } else {
      OthersUntouched(c, e, i);
    }
  }

  /** How a server comes to decide, or is still to. */
  lemma DecidingAfter(c: Cluster, e: Event, i: Id)
    requires Lives(c) && May(c, e, false) && i in Take(c, e).servers && Doing(Take(c, e).servers[i], Deciding)
    ensures i in c.servers && Doing(c.servers[i], if Ends(e, i) then Electing else Deciding)
    ensures Take(c, e).servers[i].lost == c.servers[i].lost
  {
    if i == Actor(e) {
      assert OneLife(c.servers[i]);
    } else {
      OthersUntouched(c, e, i);
    }
  }

  lemma StepRemembersInTime(c: Cluster, past: seq<Event>, e: Event)
    requires Lives(c) && Remembers(c, past) && RemembersInTime(c, past) && May(c, e, false)
    ensures RemembersInTime(Take(c, e), past + [e])
  {
    var d := Take(c, e);
    assert (past + [e])[..|past|] == past;
    forall i | i in d.servers && Doing(d.servers[i], Deciding)
      ensures d.servers[i].lost <==> StoppedInTime(past + [e], i)
    {
      DecidingAfter(c, e, i);
    }
  }

  lemma StepRemembers(c: Cluster, past: seq<Event>, e: Event)
    requires Lives(c) && Remembers(c, past) && May(c, e, false)
    ensures Remembers(Take(c, e), past + [e])
  {
    var d := Take(c, e);
    assert (past + [e])[..|past|] == past;
    forall i | i in d.servers && Doing(d.servers[i], Electing)
      ensures d.servers[i].lost <==> Stopped(past + [e], i)
    {
      ElectingAfter(c, e, i);
    }
  }

  /** Who is primary, or about to be, has the greatest identity. */
  ghost predicate Rightful(c: Cluster, i: Id) {
    i in c.servers ==>
      var s := c.servers[i];
      && (Doing(s, Deciding) && !s.lost ==> Greatest(c, i))
      && (s.role == Primary ==> Greatest(c, i))
  }

  lemma GreatestAmongTheSame(c: Cluster, d: Cluster, i: Id)
    requires forall j :: j in c.servers <==> j in d.servers
    ensures Greatest(c, i) <==> Greatest(d, i)
  {
  }

  lemma DecidePromotes(c: Cluster, i: Id, k: nat)
    requires Lives(c) && May(c, Decide(i, k), false)
    ensures var d := Take(c, Decide(i, k));
            && (forall j :: j in d.servers <==> j in c.servers)
            && (forall j :: Greatest(d, j) <==> Greatest(c, j))
            && (d.servers[i].role == Primary <==> !c.servers[i].lost)
            && forall j :: j in c.servers && j != i ==> d.servers[j] == c.servers[j]
  {
    assert OneLife(c.servers[i]);
    forall j ensures Greatest(Take(c, Decide(i, k)), j) <==> Greatest(c, j) {
      GreatestAmongTheSame(c, Take(c, Decide(i, k)), j);
    }
  }

  lemma SureMeansRightful(c: Cluster)
    requires Lives(c)
    ensures Sure(c) <==> forall i :: Rightful(c, i)
  {
    if Sure(c) {
      forall i ensures Rightful(c, i) {
        if i in c.servers && Doing(c.servers[i], Deciding) && !c.servers[i].lost {
          assert May(c, Decide(i, 0), false);
          DecidePromotes(c, i, 0);
          assert Greatest(Take(c, Decide(i, 0)), i);
        }
      }
    }
    if forall i :: Rightful(c, i) {
      assert forall i :: i in c.servers && c.servers[i].role == Primary ==> Rightful(c, i);
      forall i, k | May(c, Decide(i, k), false) ensures Settled(Take(c, Decide(i, k))) {
        DecidePromotes(c, i, k);
        assert OneLife(c.servers[i]) && Rightful(c, i);
        forall j | j in c.servers && Take(c, Decide(i, k)).servers[j].role == Primary ensures Greatest(c, j) {
          assert Rightful(c, j);
        }
      }
    }
  }

  /** The end of a wait is where it goes wrong, and only when it has not heard. */
  lemma WaitEndsRightfullyExactly(c: Cluster, past: seq<Event>, i: Id, k: nat)
    requires Lives(c) && Remembers(c, past) && May(c, WaitEnds(i, k), false)
    ensures Rightful(Take(c, WaitEnds(i, k)), i) <==> Heard(c, past, WaitEnds(i, k))
  {
    assert OneLife(c.servers[i]) && Doing(c.servers[i], Electing);
    var d := Take(c, WaitEnds(i, k));
    assert Doing(d.servers[i], Deciding) && d.servers[i].role == Backup;
    GreatestAmongTheSame(c, d, i);
  }

  lemma StepKeepsRightful(c: Cluster, past: seq<Event>, e: Event, i: Id)
    requires Lives(c) && Remembers(c, past) && Rightful(c, i) && May(c, e, false) && Heard(c, past, e)
    ensures Rightful(Take(c, e), i)
  {
    var d := Take(c, e);
    if i in d.servers {
      assert d.servers.Keys <= c.servers.Keys;
      if i != Actor(e) {
        OthersUntouched(c, e, i);
      } else if e.WaitEnds? {
        WaitEndsRightfullyExactly(c, past, i, e.k);
      } else if e.Decide? {
        DecidePromotes(c, i, e.k);
        assert OneLife(c.servers[i]);
      } else {
        assert OneLife(c.servers[i]);
      }
    }
  }

  // ----- what a timely election has heard -----

  /** An election under way: each greater server alive has been asked, and stops it in time. */
  ghost predicate Underway(c: Cluster, i: Id, j: Id)
    requires i in c.servers
  {
    var s := c.servers[i];
    && ElectionMsg(i, j, s.round) in c.net
    && (ElectionMsg(i, j, s.round) in c.handled ==> AnswerMsg(j, i, s.round) in c.net)
    && (AnswerMsg(j, i, s.round) in c.handled ==> s.lost)
  }

  ghost predicate Asked(c: Cluster, i: Id) {
    i in c.servers && Doing(c.servers[i], Electing) ==> forall j :: j in c.servers && j > i ==> Underway(c, i, j)
  }

  /** No packet is handled before it is sent, or sent before its election begins. */
  ghost predicate Tidy(c: Cluster) {
    && c.handled <= c.net
    && (forall i, j, r: nat :: ElectionMsg(i, j, r) in c.net && i in c.servers ==> r <= c.servers[i].round)
    && (forall i, j, r: nat :: AnswerMsg(j, i, r) in c.net && i in c.servers ==> r <= c.servers[i].round)
  }

  ghost predicate Invariant(c: Cluster) {
    Lives(c) && Tidy(c) && forall i :: Asked(c, i)
  }

  lemma StepKeepsTidy(c: Cluster, e: Event)
    requires Tidy(c) && May(c, e, false)
    ensures Tidy(Take(c, e))
  {
  }

  lemma UnderwayGoesOn(c: Cluster, e: Event, i: Id, j: Id)
    requires Tidy(c) && Lives(c) && May(c, e, false)
    requires i in c.servers && Doing(c.servers[i], Electing) && Underway(c, i, j)
    requires i in Take(c, e).servers && Take(c, e).servers[i].threads == [Electing] && j > i
    ensures Underway(Take(c, e), i, j)
  {
    if i == Actor(e) {
      assert OneLife(c.servers[i]);
    } else {
      OthersUntouched(c, e, i);
    }
  }

  lemma BegunAsksAll(c: Cluster, e: Event, j: Id)
    requires Tidy(c) && May(c, e, false) && e.SendElection? && j in c.servers && j > e.i
    ensures Underway(Take(c, e), e.i, j)
  {
    assert ElectionMsg(e.i, j, c.servers[e.i].round + 1) in ElectionTo(c.servers.Keys, e.i, c.servers[e.i].round + 1);
  }

  lemma WasElecting(c: Cluster, e: Event, i: Id)
    requires Lives(c) && May(c, e, false) && i in Take(c, e).servers && Doing(Take(c, e).servers[i], Electing)
    requires !(e.SendElection? && i == e.i)
    ensures i in c.servers && Doing(c.servers[i], Electing)
  {
    if i == Actor(e) {
      assert OneLife(c.servers[i]);
    } else {
      OthersUntouched(c, e, i);
    }
  }

  /** A begun election asks everybody, and everybody asked answers in time. */
  lemma StepKeepsAsked(c: Cluster, e: Event, i: Id)
    requires Invariant(c) && May(c, e, false)
    ensures Asked(Take(c, e), i)
  {
    var d := Take(c, e);
    assert Asked(c, i);
    if i in d.servers && Doing(d.servers[i], Electing) {
      assert d.servers.Keys <= c.servers.Keys;
      forall j | j in d.servers && j > i ensures Underway(d, i, j) {
        if e.SendElection? && i == e.i {
          BegunAsksAll(c, e, j);
        } else {
          WasElecting(c, e, i);
          UnderwayGoesOn(c, e, i, j);
        }
      }
    }
  }

  /** A wait that outlasts its packets has heard of every greater server alive. */
  lemma TimelyWaitHears(c: Cluster, past: seq<Event>, e: Event)
    requires Invariant(c) && Remembers(c, past) && May(c, e, true)
    ensures Heard(c, past, e)
  {
    if e.WaitEnds? && !Greatest(c, e.i) {
      assert OneLife(c.servers[e.i]) && Asked(c, e.i);
      var j :| j in c.servers && j > e.i;
      assert Underway(c, e.i, j);
      assert ElectionMsg(e.i, j, c.servers[e.i].round) in c.handled;
    }
  }

  // ----- every run -----

  ghost predicate IsRun(c: Cluster, es: seq<Event>, timely: bool)
    decreases es
  {
    es == [] || (May(c, es[0], timely) && IsRun(Take(c, es[0]), es[1..], timely))
  }

  ghost function After(c: Cluster, es: seq<Event>): Cluster
    requires IsRun(c, es, false)
    decreases es
  {
    if es == [] then c else After(Take(c, es[0]), es[1..])
  }

  predicate Newborn(s: Server) {
    && s.role == Backup && (s.threads == [Starting] || s.threads == [Monitoring])
    && !s.inProgress && !s.primaryAlive && s.promotions == 0 == s.senders && s.round == 0
  }

  /** No primary, nothing sent; every server is in its receive loop. */
  predicate Initial(c: Cluster) {
    c.net == {} == c.handled && forall i :: i in c.servers ==> Newborn(c.servers[i])
  }

  /** Whatever the timing: at most one promotion and one heartbeat sender per server. */
  lemma {:induction false} EachServerLivesOnce(c: Cluster, es: seq<Event>)
    requires Lives(c) && IsRun(c, es, false)
    ensures Lives(After(c, es))
    decreases es
  {
    if es != [] {
      StepKeepsLives(c, es[0]);
      EachServerLivesOnce(Take(c, es[0]), es[1..]);
    }
  }

  /** Every wait that ends in es, which comes after past, has heard. */
  ghost predicate HeardAlong(c: Cluster, past: seq<Event>, es: seq<Event>)
    requires IsRun(c, es, false)
    decreases es
  {
    es == [] || (Heard(c, past, es[0]) && HeardAlong(Take(c, es[0]), past + [es[0]], es[1..]))
  }

  ghost predicate SureAlong(c: Cluster, es: seq<Event>)
    requires IsRun(c, es, false)
    decreases es
  {
    Sure(c) && (es == [] || SureAlong(Take(c, es[0]), es[1..]))
  }

  lemma {:induction false} SureExactlyWhenHeard(c: Cluster, past: seq<Event>, es: seq<Event>)
    requires Lives(c) && Remembers(c, past) && Sure(c) && IsRun(c, es, false)
    ensures SureAlong(c, es) <==> HeardAlong(c, past, es)
    decreases es
  {
    if es != [] {
      var d := Take(c, es[0]);
      StepKeepsLives(c, es[0]);
      StepRemembers(c, past, es[0]);
      SureMeansRightful(c);
      SureMeansRightful(d);
      if Heard(c, past, es[0]) {
        forall i ensures Rightful(d, i) {
          StepKeepsRightful(c, past, es[0], i);
        }
        SureExactlyWhenHeard(d, past + [es[0]], es[1..]);
      } else {
        WaitEndsRightfullyExactly(c, past, es[0].i, es[0].k);
        assert !Sure(d);
      }
    }
  }

  /**
   The exact condition for election safety, whatever the timing, the losses and
   the crashes: throughout a run every live primary, and every one about to be,
   has the greatest live identity if and only if every wait that ended either was
   that of the greatest server alive, or had been handed, since its ELECTION went
   out, a packet from a greater server or some server's announcement.
   */
  lemma SafeExactlyWhenHeard(c: Cluster, es: seq<Event>)
    requires Initial(c) && IsRun(c, es, false)
    ensures SureAlong(c, es) <==> HeardAlong(c, [], es)
  {
    InitialIsSure(c);
    SureExactlyWhenHeard(c, [], es);
  }

  /** A wait that ends unheard, decided next, makes a primary that is not the greatest. */
  lemma UnheardWaitBetrays(c: Cluster, past: seq<Event>, i: Id, k: nat)
    requires Lives(c) && Remembers(c, past) && May(c, WaitEnds(i, k), false) && !Heard(c, past, WaitEnds(i, k))
    ensures IsRun(c, [WaitEnds(i, k), Decide(i, k)], false)
    ensures var d := After(c, [WaitEnds(i, k), Decide(i, k)]);
            i in d.servers && d.servers[i].role == Primary && !Greatest(d, i)
  {
    var waited := Take(c, WaitEnds(i, k));
    assert OneLife(c.servers[i]) && Doing(c.servers[i], Electing);
    StepKeepsLives(c, WaitEnds(i, k));
    GreatestAmongTheSame(c, waited, i);
    DecidePromotes(waited, i, k);
    TwoSteps(c, WaitEnds(i, k), Decide(i, k));
  }

  lemma TwoSteps(c: Cluster, e: Event, f: Event)
    requires May(c, e, false) && May(Take(c, e), f, false)
    ensures IsRun(c, [e, f], false) && After(c, [e, f]) == Take(Take(c, e), f)
  {
    assert [e, f][1..] == [f] && [f][1..] == [];
    assert IsRun(Take(Take(c, e), f), [], false);
    assert IsRun(Take(c, e), [f], false) && After(Take(c, e), [f]) == Take(Take(c, e), f);
  }

  lemma {:induction false} RunRemembers(c: Cluster, past: seq<Event>, es: seq<Event>)
    requires Lives(c) && Remembers(c, past) && RemembersInTime(c, past) && IsRun(c, es, false)
    ensures var d := After(c, es); Lives(d) && Remembers(d, past + es) && RemembersInTime(d, past + es)
    decreases es
  {
    if es == [] {
      assert past + es == past;
    } else {
      StepKeepsLives(c, es[0]);
      StepRemembers(c, past, es[0]);
      StepRemembersInTime(c, past, es[0]);
      RunRemembers(Take(c, es[0]), past + [es[0]], es[1..]);
      assert past + [es[0]] + es[1..] == past + es;
    }
  }

  /**
   In every run a server's election decides by the packets handed to it while it
   waited: it promotes itself exactly when none of them was from a greater server
   or an announcement.
   */
  lemma PromotesExactlyUnstopped(c: Cluster, es: seq<Event>, i: Id, k: nat)
    requires Initial(c) && IsRun(c, es, false) && May(After(c, es), Decide(i, k), false)
    ensures var d := Take(After(c, es), Decide(i, k));
            d.servers[i].role == Primary <==> !StoppedInTime(es, i)
  {
    InitialIsSure(c);
    assert RemembersInTime(c, []) by {
      forall j | j in c.servers ensures !Doing(c.servers[j], Deciding) {
        assert Newborn(c.servers[j]);
      }
    }
    RunRemembers(c, [], es);
    assert [] + es == es && OneLife(After(c, es).servers[i]);
    DecidePromotes(After(c, es), i, k);
  }

  /** The failure detector of a server never promoted can always go on. */
  lemma DetectorGoesOn(c: Cluster, i: Id)
    requires Lives(c) && i in c.servers && c.servers[i].promotions == 0
    ensures May(c, Crash(i), false) && May(c, HeartbeatArrives(i), false)
    ensures exists e :: May(c, e, false) && Actor(e) == i && !e.Crash? && !e.Receive? && !e.HeartbeatArrives?
  {
    var s := c.servers[i];
    assert OneLife(s) && ThreadAt(c, i, 0, s.threads[0]);
    var e := match s.threads[0]
      case Starting => FirstElection(i, 0)
      case Monitoring => if s.primaryAlive then MonitorRenews(i, 0) else MonitorTimesOut(i, 0)
      case Preparing => SendElection(i, 0)
      case Electing => WaitEnds(i, 0)
      case Deciding => Decide(i, 0);
    assert May(c, e, false);
  }

  lemma {:induction false} SureAtTheEnd(c: Cluster, es: seq<Event>)
    requires IsRun(c, es, false) && SureAlong(c, es)
    ensures Sure(After(c, es))
    decreases es
  {
    if es != [] {
      SureAtTheEnd(Take(c, es[0]), es[1..]);
    }
  }

  lemma {:induction false} TimelyRunHears(c: Cluster, past: seq<Event>, es: seq<Event>)
    requires Invariant(c) && Remembers(c, past) && IsRun(c, es, true)
    ensures IsRun(c, es, false) && HeardAlong(c, past, es)
    decreases es
  {
    if es != [] {
      TimelyWaitHears(c, past, es[0]);
      StepRemembers(c, past, es[0]);
      StepKeepsLives(c, es[0]);
      StepKeepsTidy(c, es[0]);
      forall i ensures Asked(Take(c, es[0]), i) {
        StepKeepsAsked(c, es[0], i);
      }
      TimelyRunHears(Take(c, es[0]), past + [es[0]], es[1..]);
    }
  }

  lemma InitialIsSure(c: Cluster)
    requires Initial(c)
    ensures Invariant(c) && Sure(c) && Remembers(c, [])
  {
    forall i | i in c.servers ensures OneLife(c.servers[i]) && Rightful(c, i) && Asked(c, i) {
      assert Newborn(c.servers[i]);
    }
    SureMeansRightful(c);
  }

  /**
   Election safety: in a timely run without joins, a live primary has the
   greatest identity alive, and so has whoever is about to become one; so there
   is never more than one.
   */
  lemma AtMostOnePrimary(c: Cluster, es: seq<Event>)
    requires Initial(c) && IsRun(c, es, true)
    ensures IsRun(c, es, false) && SureAlong(c, es)
    ensures var d := After(c, es);
            && (forall i :: i in d.servers && d.servers[i].role == Primary ==> Greatest(d, i))
            && (forall i, j | i in d.servers && j in d.servers ::
                  d.servers[i].role == Primary && d.servers[j].role == Primary ==> i == j)
            && Lives(d)
  {
    InitialIsSure(c);
    TimelyRunHears(c, [], es);
    SafeExactlyWhenHeard(c, es);
    SureAtTheEnd(c, es);
    EachServerLivesOnce(c, es);
  }

  // ----- what is on the network -----

  /** Everybody alive is sent a promoted server's announcement, and nobody another's. */
  ghost predicate Announces(c: Cluster, i: Id) {
    i in c.servers ==>
      && (c.servers[i].promotions == 1 ==> forall j :: j in c.servers ==> AnnounceMsg(i, j) in c.net)
      && (forall j :: AnnounceMsg(i, j) in c.net ==> c.servers[i].promotions == 1)
  }

  /** Everybody alive is sent each of a server's elections, and no other. */
  ghost predicate Calls(c: Cluster, i: Id) {
    i in c.servers ==>
      forall j, r: nat :: j in c.servers ==> (ElectionMsg(i, j, r) in c.net <==> 1 <= r <= c.servers[i].round)
  }

  /** A server answers just the elections of those not greater than itself that it has handled. */
  ghost predicate Answers(c: Cluster) {
    forall i, j, r: nat :: AnswerMsg(j, i, r) in c.net <==> ElectionMsg(i, j, r) in c.handled && j >= i
  }

  ghost predicate Truthful(c: Cluster) {
    Answers(c) && forall i :: Announces(c, i) && Calls(c, i)
  }

  lemma StepAnnounces(c: Cluster, e: Event, i: Id)
    requires Lives(c) && Announces(c, i) && May(c, e, false)
    ensures Announces(Take(c, e), i)
  {
    var d := Take(c, e);
    if i in d.servers {
      assert OneLife(c.servers[i]);
      if i == Actor(e) {
        assert e.Decide? && d.servers[i].promotions == 1 ==> forall j :: j in d.servers ==> AnnounceMsg(i, j) in d.net;
      } else {
        OthersUntouched(c, e, i);
      }
    }
  }

  lemma StepCalls(c: Cluster, e: Event, i: Id)
    requires Calls(c, i) && May(c, e, false)
    ensures Calls(Take(c, e), i)
  {
    if i in Take(c, e).servers && i != Actor(e) {
      OthersUntouched(c, e, i);
    }
  }

  lemma StepAnswers(c: Cluster, e: Event)
    requires Answers(c) && May(c, e, false)
    ensures Answers(Take(c, e))
  {
  }

  /**
   Over every run, whatever the timing: who was promoted has announced it to
   everybody alive and nobody else has; every election has been sent to everybody
   alive; and answers come from those not smaller, to what they have handled.
   */
  lemma {:induction false} PacketsAreTruthful(c: Cluster, es: seq<Event>)
    requires Lives(c) && Truthful(c) && IsRun(c, es, false)
    ensures Truthful(After(c, es))
    decreases es
  {
    if es != [] {
      StepKeepsLives(c, es[0]);
      StepAnswers(c, es[0]);
      forall i ensures Announces(Take(c, es[0]), i) && Calls(Take(c, es[0]), i) {
        assert Announces(c, i) && Calls(c, i);
        StepAnnounces(c, es[0], i);
        StepCalls(c, es[0], i);
      }
      PacketsAreTruthful(Take(c, es[0]), es[1..]);
    }
  }

  lemma InitialIsTruthful(c: Cluster)
    requires Initial(c)
    ensures Truthful(c) && Lives(c)
  {
    forall i | i in c.servers ensures Announces(c, i) && Calls(c, i) && OneLife(c.servers[i]) {
      assert Newborn(c.servers[i]);
    }
  }

  // ----- the monitor -----

  /** What tells a backup that there is a primary. */
  predicate Feeds(e: Event, i: Id) {
    (e.HeartbeatArrives? && e.i == i) || (e.Receive? && e.msg.AnnounceMsg? && e.msg.to == i)
  }

  /** The monitor's wait starts anew. */
  predicate Renews(e: Event, i: Id) {
    (e.MonitorRenews? || e.Decide?) && e.i == i
  }

  /** Since its wait last started, i has been told. */
  predicate Fed(past: seq<Event>, i: Id) {
    past != [] &&
    var last := past[|past| - 1];
    Feeds(last, i) || (!Renews(last, i) && Fed(past[..|past| - 1], i))
  }

  ghost predicate Watches(c: Cluster, past: seq<Event>) {
    forall i :: i in c.servers && |c.servers[i].threads| == 1 ==> (c.servers[i].primaryAlive <==> Fed(past, i))
  }

  lemma StepWatches(c: Cluster, past: seq<Event>, e: Event)
    requires Lives(c) && Watches(c, past) && May(c, e, false)
    ensures Watches(Take(c, e), past + [e])
  {
    var d := Take(c, e);
    assert (past + [e])[..|past|] == past;
    forall i | i in d.servers && |d.servers[i].threads| == 1
      ensures d.servers[i].primaryAlive <==> Fed(past + [e], i)
    {
      if i == Actor(e) {
        assert OneLife(c.servers[i]);
      } else {
        OthersUntouched(c, e, i);
      }
    }
  }

  lemma {:induction false} RunWatches(c: Cluster, past: seq<Event>, es: seq<Event>)
    requires Lives(c) && Watches(c, past) && IsRun(c, es, false)
    ensures Watches(After(c, es), past + es)
    decreases es
  {
    if es == [] {
      assert past + es == past;
    } else {
      StepKeepsLives(c, es[0]);
      StepWatches(c, past, es[0]);
      RunWatches(Take(c, es[0]), past + [es[0]], es[1..]);
      assert past + [es[0]] + es[1..] == past + es;
    }
  }

  /**
   A monitor can time out exactly when neither a heartbeat nor an announcement has
   reached its server since its wait started, and goes on waiting otherwise.
   */
  lemma TimesOutExactlyUnfed(c: Cluster, es: seq<Event>, i: Id, k: nat)
    requires Initial(c) && IsRun(c, es, false) && ThreadAt(After(c, es), i, k, Monitoring)
    ensures May(After(c, es), MonitorTimesOut(i, k), false) <==> !Fed(es, i)
    ensures May(After(c, es), MonitorRenews(i, k), false) <==> Fed(es, i)
  {
    InitialIsTruthful(c);
    assert Watches(c, []) by {
      forall j | j in c.servers ensures !c.servers[j].primaryAlive {
        assert Newborn(c.servers[j]);
      }
    }
    RunWatches(c, [], es);
    EachServerLivesOnce(c, es);
    assert [] + es == es && OneLife(After(c, es).servers[i]);
  }

  // ----- demotion -----

  /** Another server's announcement makes whoever hears it a backup. */
  lemma AnnouncementDemotes(c: Cluster, i: Id, j: Id)
    requires May(c, Receive(AnnounceMsg(j, i)), false) && j != i
    ensures Take(c, Receive(AnnounceMsg(j, i))).servers[i].role == Backup
  {
  }

  /** And nothing else does: its own announcement, for one, leaves it in its role. */
  lemma DemotedExactly(c: Cluster, e: Event, i: Id)
    requires Lives(c) && May(c, e, false) && i in c.servers && c.servers[i].role == Primary && i in Take(c, e).servers
    ensures Take(c, e).servers[i].role == Backup
       <==> e.Receive? && e.msg.AnnounceMsg? && e.msg.to == i && e.msg.from != i
  {
    assert OneLife(c.servers[i]);
    if i != Actor(e) {
      OthersUntouched(c, e, i);
    }
  }

  /** A server once promoted and then demoted is never primary again. */
  lemma {:induction false} DemotedForEver(c: Cluster, es: seq<Event>, i: Id)
    requires Lives(c) && IsRun(c, es, false)
    requires i in c.servers ==> c.servers[i].promotions == 1 && c.servers[i].role == Backup
    ensures var d := After(c, es); i in d.servers ==> d.servers[i].role == Backup
    decreases es
  {
    if es != [] {
      var d := Take(c, es[0]);
      StepKeepsLives(c, es[0]);
      if i in d.servers {
        assert i in c.servers && OneLife(c.servers[i]);
        if i != Actor(es[0]) {
          OthersUntouched(c, es[0], i);
        }
      }
      DemotedForEver(d, es[1..], i);
    }
  }

  /** Two primaries that hear of each other both step down, for good: nobody is left to serve. */
  lemma PrimariesStepDown(c: Cluster, i: Id, j: Id, later: seq<Event>)
    requires Lives(c) && Truthful(c) && i != j && {i, j} <= c.servers.Keys
    requires c.servers[i].role == Primary == c.servers[j].role
    ensures var es := [Receive(AnnounceMsg(i, j)), Receive(AnnounceMsg(j, i))];
            && IsRun(c, es, false)
            && (IsRun(After(c, es), later, false) ==>
                  var d := After(After(c, es), later);
                  && (i in d.servers ==> d.servers[i].role == Backup)
                  && (j in d.servers ==> d.servers[j].role == Backup))
  {
    var e, f := Receive(AnnounceMsg(i, j)), Receive(AnnounceMsg(j, i));
    assert OneLife(c.servers[i]) && OneLife(c.servers[j]) && Announces(c, i) && Announces(c, j);
    AnnouncementDemotes(c, j, i);
    var c1 := Take(c, e);
    OthersUntouched(c, e, i);
    AnnouncementDemotes(c1, i, j);
    var c2 := Take(c1, f);
    OthersUntouched(c1, f, j);
    TwoSteps(c, e, f);
    StepKeepsLives(c, e);
    StepKeepsLives(c1, f);
    if IsRun(c2, later, false) {
      DemotedForEver(c2, later, i);
      DemotedForEver(c2, later, j);
    }
  }

  // ----- without the timing assumption -----

  const BORN: Server := Server(Backup, [Starting], false, false, false, 0, 0, 0)

  const RUSH: Cluster := Cluster(map[1 := BORN, 2 := BORN], {}, {})

  function Solo(i: Id): seq<Event> {
    [FirstElection(i, 0), SendElection(i, 0), WaitEnds(i, 0), Decide(i, 0)]
  }

  /** A server whose wait ends before anything is delivered promotes itself. */
  lemma SoloWins(c: Cluster, i: Id)
    requires i in c.servers && c.servers[i] == BORN
    ensures IsRun(c, Solo(i), false)
    ensures var d := After(c, Solo(i));
            && d.servers.Keys == c.servers.Keys && d.servers[i].role == Primary
            && forall j :: j in c.servers && j != i ==> d.servers[j] == c.servers[j]
  {
    var es := Solo(i);
    var c1 := Take(c, es[0]);
    var c2 := Take(c1, es[1]);
    var c3 := Take(c2, es[2]);
    var c4 := Take(c3, es[3]);
    assert es[1..][0] == es[1] && es[1..][1..][0] == es[2] && es[1..][1..][1..][0] == es[3];
    assert IsRun(c4, [], false);
    assert es[1..][1..][1..] == [es[3]] && [es[3]][1..] == [];
    assert IsRun(c3, es[1..][1..][1..], false) && After(c3, es[1..][1..][1..]) == c4;
    assert IsRun(c2, es[1..][1..], false) && After(c2, es[1..][1..]) == c4;
    assert IsRun(c1, es[1..], false) && After(c1, es[1..]) == c4;
  }

  lemma {:induction false} RunConcat(c: Cluster, xs: seq<Event>, ys: seq<Event>)
    requires IsRun(c, xs, false) && IsRun(After(c, xs), ys, false)
    ensures IsRun(c, xs + ys, false) && After(c, xs + ys) == After(After(c, xs), ys)
    decreases xs
  {
    if xs == [] {
      assert xs + ys == ys;
    } else {
      assert (xs + ys)[1..] == xs[1..] + ys;
      RunConcat(Take(c, xs[0]), xs[1..], ys);
    }
  }

  /** If the wait may end before its packets arrive, two live primaries are reachable. */
  lemma TwoPrimariesWithoutTiming()
    ensures Initial(RUSH) && IsRun(RUSH, Solo(1) + Solo(2), false)
    ensures var d := After(RUSH, Solo(1) + Solo(2));
            {1, 2} <= d.servers.Keys && d.servers[1].role == Primary == d.servers[2].role
  {
    SoloWins(RUSH, 1);
    var d := After(RUSH, Solo(1));
    SoloWins(d, 2);
    RunConcat(RUSH, Solo(1), Solo(2));
  }

  /** And once those two have heard of each other, neither is ever primary again. */
  lemma TwoPrimariesStepDown(later: seq<Event>)
    ensures IsRun(RUSH, Solo(1) + Solo(2), false)
    ensures var c := After(RUSH, Solo(1) + Solo(2));
            var es := [Receive(AnnounceMsg(1, 2)), Receive(AnnounceMsg(2, 1))];
            && IsRun(c, es, false)
            && (IsRun(After(c, es), later, false) ==>
                  var d := After(After(c, es), later);
                  forall i :: i in {1, 2} && i in d.servers ==> d.servers[i].role == Backup)
  {
    TwoPrimariesWithoutTiming();
    InitialIsTruthful(RUSH);
    EachServerLivesOnce(RUSH, Solo(1) + Solo(2));
    PacketsAreTruthful(RUSH, Solo(1) + Solo(2));
    PrimariesStepDown(After(RUSH, Solo(1) + Solo(2)), 1, 2, later);
  }
}
