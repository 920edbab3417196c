/**
 One server that may crash and restart at any moment: which of its promises survive, given what
 it saves and when.
 */
module Durability {
  import opened Chat
  import opened Logs
  import opened Options
  import opened Consensus
  import opened Storage

  // The state in which a server starts, given what its disk holds.
  function Boot(id: int, peers: set<int>, disk: Option<Saved>): Node {
    var n := Init(id, peers);
    if RestoresData(disk) then
      n.(currentTerm := disk.value.term, votedFor := disk.value.votedFor, log := disk.value.log)
    else n
  }

  datatype Machine = Machine(node: Node, disk: Option<Saved>)

  // Votes and acknowledgements are saved before they are sent. A started election is not saved,
  // and neither is stepping down on a reply; a submitted command is saved some time later, which
  // is what Save stands for. Requests and replies carry arbitrary values.
  datatype Event =
    | ElectionTimeout
    | VoteRequest(req: RequestVoteRequest)
    | VoteReply(voter: int, race: nat, resp: RequestVoteResponse)
    | LeaderStart(startRace: nat)
    | AppendRequest(areq: AppendEntriesRequest)
    | AppendReply(peer: int, areq: AppendEntriesRequest, aresp: AppendEntriesResponse)
    | ClientCommand(command: Command)
    | Emit
    | Save
    | CrashAndRestart

  function SavedState(n: Node): Option<Saved> { Some(Saved(n.currentTerm, n.votedFor, n.log)) }

  predicate Possible(m: Machine, e: Event) {
    match e
    case ElectionTimeout => m.node.state != Leader
    case VoteReply(_, race, _) => race < |m.node.races|
    case LeaderStart(race) => race in m.node.starting
    case _ => true
  }

  function After(m: Machine, e: Event): Machine
    requires Possible(m, e)
  {
    match e
    case ElectionTimeout => m.(node := StartElection(m.node))
    case VoteRequest(req) => var n := HandleRequestVote(m.node, req).0; Machine(n, SavedState(n))
    case VoteReply(voter, race, resp) => m.(node := HandleVoteReply(m.node, voter, race, resp))
    case LeaderStart(race) => m.(node := RunStart(m.node, race))
    case AppendRequest(req) => var n := HandleAppendEntries(m.node, req).0; Machine(n, SavedState(n))
    case AppendReply(peer, req, resp) => m.(node := HandleAppendReply(m.node, peer, req, resp))
    case ClientCommand(command) => m.(node := Submit(m.node, command))
    case Emit => m.(node := SendCommits(m.node))
    case Save => m.(disk := SavedState(m.node))
    case CrashAndRestart => m.(node := Boot(m.node.id, m.node.peers, m.disk))
  }

  predicate PossibleRun(m: Machine, es: seq<Event>)
    decreases |es|
  {
    es == [] || (Possible(m, es[0]) && PossibleRun(After(m, es[0]), es[1..]))
  }

  function AfterAll(m: Machine, es: seq<Event>): Machine
    requires PossibleRun(m, es)
    decreases |es|
  {
    if es == [] then m else AfterAll(After(m, es[0]), es[1..])
  }

  function NewMachine(id: int, peers: set<int>): Machine { Machine(Boot(id, peers, None), None) }

  predicate Grants(m: Machine, req: RequestVoteRequest) { HandleRequestVote(m.node, req).1.voteGranted }

  // ---------- every reachable machine ----------

  predicate MachineOk(m: Machine) {
    && m.node.id >= 0 && m.node.currentTerm >= 0
    && (m.node.state == Candidate ==> m.node.votedFor == m.node.id)
    && (forall e | 0 <= e < |m.node.races| :: m.node.races[e].term >= 0)
    && (m.disk.Some? ==> m.disk.value.term >= 0)
  }

  predicate NodeStaysOk(n: Node, n': Node) {
    && n'.id == n.id && n'.peers == n.peers && n'.currentTerm >= 0
    && (n'.state == Candidate ==> n'.votedFor == n'.id)
    && forall e | 0 <= e < |n'.races| :: n'.races[e].term >= 0
  }

  lemma VoteRequestKeeps(m: Machine, req: RequestVoteRequest)
    requires MachineOk(m)
    ensures NodeStaysOk(m.node, HandleRequestVote(m.node, req).0)
  {
  }

  lemma AppendRequestKeeps(m: Machine, req: AppendEntriesRequest)
    requires MachineOk(m)
    ensures NodeStaysOk(m.node, HandleAppendEntries(m.node, req).0)
  {
  }

  lemma VoteReplyKeeps(m: Machine, voter: int, race: nat, resp: RequestVoteResponse)
    requires MachineOk(m) && race < |m.node.races|
    ensures NodeStaysOk(m.node, HandleVoteReply(m.node, voter, race, resp))
  {
  }

  lemma MachineStaysOk(m: Machine, e: Event)
    requires MachineOk(m) && Possible(m, e)
    ensures MachineOk(After(m, e)) && After(m, e).node.id == m.node.id && After(m, e).node.peers == m.node.peers
  {
    match e
    case VoteRequest(req) => VoteRequestKeeps(m, req);
    case VoteReply(voter, race, resp) => VoteReplyKeeps(m, voter, race, resp);
    case AppendRequest(req) => AppendRequestKeeps(m, req);
    case _ => assert NodeStaysOk(m.node, After(m, e).node);
  }

  lemma {:induction false} ReachableOk(m: Machine, es: seq<Event>)
    requires MachineOk(m) && PossibleRun(m, es)
    ensures MachineOk(AfterAll(m, es))
    ensures AfterAll(m, es).node.id == m.node.id && AfterAll(m, es).node.peers == m.node.peers
    decreases |es|
  {
    if es != [] {
      MachineStaysOk(m, es[0]);
      ReachableOk(After(m, es[0]), es[1..]);
    }
  }

  // ---------- what a restarted server hands out ----------

  // The event raises the commit index from below k to k or beyond: a request that is accepted, or a
  // success reply that a leader counts.
  predicate Raises(m: Machine, e: Event, k: int)
    requires Possible(m, e)
  {
    && m.node.commitIndex < k <= After(m, e).node.commitIndex
    && ((e.AppendRequest? && HandleAppendEntries(m.node, e.areq).1.success && e.areq.leaderCommit >= k) ||
        (e.AppendReply? && m.node.state == Leader && e.aresp.success && e.areq.term == e.aresp.term))
  }

  predicate RaisedIn(m: Machine, es: seq<Event>, k: int)
    requires PossibleRun(m, es)
    decreases |es|
  {
    es != [] && (Raises(m, es[0], k) || RaisedIn(After(m, es[0]), es[1..], k))
  }

  predicate NoRestart(es: seq<Event>) { forall i | 0 <= i < |es| :: !es[i].CrashAndRestart? }

  lemma OnlyThatRaises(m: Machine, e: Event, k: int)
    requires Possible(m, e) && !e.CrashAndRestart? && m.node.commitIndex < k && m.node.lastApplied < k
    ensures After(m, e).node.lastApplied < k
    ensures After(m, e).node.commitIndex < k || Raises(m, e, k)
  {
    match e
    case VoteRequest(req) => VoteRequestCommitsNothing(m.node, req);
    case VoteReply(voter, race, resp) => VoteReplyCommitsNothing(m.node, voter, race, resp);
    case AppendRequest(req) => RequestCommits(m.node, req);
    case AppendReply(peer, req, resp) => ReplyCommits(m.node, peer, req, resp);
    case _ =>
  }

  lemma VoteRequestCommitsNothing(n: Node, req: RequestVoteRequest)
    ensures var n' := HandleRequestVote(n, req).0; n'.commitIndex == n.commitIndex && n'.lastApplied == n.lastApplied
  {
  }

  lemma VoteReplyCommitsNothing(n: Node, voter: int, race: nat, resp: RequestVoteResponse)
    requires race < |n.races|
    ensures var n' := HandleVoteReply(n, voter, race, resp);
            n'.commitIndex == n.commitIndex && n'.lastApplied == n.lastApplied
  {
  }

  lemma RequestCommits(n: Node, req: AppendEntriesRequest)
    ensures var (n', resp) := HandleAppendEntries(n, req);
            && n'.lastApplied == n.lastApplied
            && (n'.commitIndex > n.commitIndex ==> resp.success && n'.commitIndex <= req.leaderCommit)
  {
  }

  lemma ReplyCommits(n: Node, peer: int, req: AppendEntriesRequest, resp: AppendEntriesResponse)
    ensures var n' := HandleAppendReply(n, peer, req, resp);
            && n'.lastApplied == n.lastApplied
            && (n'.commitIndex != n.commitIndex ==> n.state == Leader && resp.success && req.term == resp.term)
  {
  }

  lemma {:induction false} HandedOutWasRaised(m: Machine, es: seq<Event>, k: int)
    requires PossibleRun(m, es) && NoRestart(es)
    requires m.node.commitIndex < k && m.node.lastApplied < k <= AfterAll(m, es).node.lastApplied
    ensures RaisedIn(m, es, k)
    decreases |es|
  {
    if es != [] {
      OnlyThatRaises(m, es[0], k);
      if After(m, es[0]).node.commitIndex < k {
        HandedOutWasRaised(After(m, es[0]), es[1..], k);
      }
    }
  }

  // After a restart, whatever the disk held and whatever happened before: nothing is handed to the
  // apply stream again that a request or a counted reply has not committed since.
  lemma RestartHandsOutNothingUncommitted(m: Machine, es: seq<Event>, k: int)
    requires PossibleRun(After(m, CrashAndRestart), es) && NoRestart(es)
    requires 0 <= k <= AfterAll(After(m, CrashAndRestart), es).node.lastApplied
    ensures RaisedIn(After(m, CrashAndRestart), es, k)
  {
    HandedOutWasRaised(After(m, CrashAndRestart), es, k);
  }

  // ---------- votes ----------

  // The vote for p in term t is on record in memory and on disk, or the term is over in both.
  predicate Bound(m: Machine, t: int, p: int) {
    && p != -1 && |m.node.log| > 0 && m.disk.Some? && |m.disk.value.log| > 0
    && (m.node.currentTerm > t ||
        (m.node.currentTerm == t && m.node.votedFor == p && m.node.state == Follower))
    && (m.disk.value.term > t || (m.disk.value.term == t && m.disk.value.votedFor == p))
  }

  // No reply sets a candidate back into term t or an earlier one, and no spawned start of leadership
  // runs before the server is in a later term. Everything else is free.
  predicate Harmless(m: Machine, e: Event, t: int)
    requires Possible(m, e)
  {
    match e
    case VoteReply(_, race, resp) =>
      m.node.state == Candidate && resp.term > m.node.races[race].term ==> resp.term > t
    case LeaderStart(_) => m.node.currentTerm > t
    case _ => true
  }

  predicate HarmlessRun(m: Machine, es: seq<Event>, t: int)
    requires PossibleRun(m, es)
    decreases |es|
  {
    es == [] || (Harmless(m, es[0], t) && HarmlessRun(After(m, es[0]), es[1..], t))
  }

  // A log never becomes empty again.
  lemma SpliceNonempty(log: Log, at: nat, entries: Log)
    requires |log| > 0 && at <= |log|
    ensures |Splice(log, at, entries)| > 0
  {
  }

  // Exactly the harmless events keep the vote on record.
  lemma BoundStaysIff(m: Machine, e: Event, t: int, p: int)
    requires Bound(m, t, p) && Possible(m, e)
    ensures Bound(After(m, e), t, p) <==> Harmless(m, e, t)
  {
    if e.AppendRequest? {
      var n := StepDown(SeeTerm(m.node, e.areq.term), e.areq.term);
      if Accepts(n, e.areq) {
        SpliceNonempty(n.log, e.areq.prevLogIndex + 1, e.areq.entries);
      }
    }
  }

  predicate BoundAlways(m: Machine, es: seq<Event>, t: int, p: int)
    requires PossibleRun(m, es)
    decreases |es|
  {
    Bound(m, t, p) && (es != [] ==> BoundAlways(After(m, es[0]), es[1..], t, p))
  }

  lemma {:induction false} BoundThroughoutIff(m: Machine, es: seq<Event>, t: int, p: int)
    requires Bound(m, t, p) && PossibleRun(m, es)
    ensures BoundAlways(m, es, t, p) <==> HarmlessRun(m, es, t)
    ensures HarmlessRun(m, es, t) ==> Bound(AfterAll(m, es), t, p)
    decreases |es|
  {
    if es != [] {
      BoundStaysIff(m, es[0], t, p);
      if Harmless(m, es[0], t) {
        BoundThroughoutIff(After(m, es[0]), es[1..], t, p);
      }
    }
  }

  // A vote granted to a peer by a follower with a non-empty log is never followed by a vote for
  // anybody else in the term, through any number of crashes and any other harmless events.
  lemma VoteIsDurable(m: Machine, req: RequestVoteRequest, es: seq<Event>, other: RequestVoteRequest)
    requires Grants(m, req) && req.candidateId != -1
    requires |m.node.log| > 0 && After(m, VoteRequest(req)).node.state == Follower
    requires PossibleRun(After(m, VoteRequest(req)), es) && HarmlessRun(After(m, VoteRequest(req)), es, req.term)
    requires other.term == req.term && other.candidateId != req.candidateId
    ensures !Grants(AfterAll(After(m, VoteRequest(req)), es), other)
  {
    var m1 := After(m, VoteRequest(req));
    assert Bound(m1, req.term, req.candidateId);
    BoundThroughoutIff(m1, es, req.term, req.candidateId);
  }

  // After the harmless events `es` the server grants another peer its vote in the same term.
  predicate VotesAgain(m: Machine, es: seq<Event>, req: RequestVoteRequest, other: RequestVoteRequest) {
    && PossibleRun(m, es) && HarmlessRun(m, es, req.term)
    && other.term == req.term && other.candidateId != req.candidateId && other.candidateId in m.node.peers
    && Grants(AfterAll(m, es), other)
  }

  // With an empty log the saved vote is ignored at restart, and one crash is enough to vote for a
  // second peer, whose log is empty too.
  lemma VoteIsLost(m: Machine, req: RequestVoteRequest, second: int)
    requires MachineOk(m) && Grants(m, req) && |m.node.log| == 0
    requires second in m.node.peers && second != req.candidateId
    ensures VotesAgain(After(m, VoteRequest(req)), [CrashAndRestart], req,
                       RequestVoteRequest(req.term, second, -1, -1))
  {
    var m1 := After(m, VoteRequest(req));
    assert AfterAll(m1, [CrashAndRestart]) == After(m1, CrashAndRestart);
    assert PossibleRun(After(m1, CrashAndRestart), []);
  }

  // A request for the vote of n that n finds up to date.
  function Asking(n: Node, term: int, candidate: int): RequestVoteRequest {
    RequestVoteRequest(term, candidate, LastLogIndex(n.log), LastLogTerm(n.log))
  }

  function Heartbeat(term: int, leader: int): Event {
    AppendRequest(AppendEntriesRequest(term, leader, -1, -1, [], -1))
  }

  // A server that is not a follower steps down on a request of its own term, and forgets its vote.
  lemma HeartbeatFreesVote(m: Machine, leader: int, second: int)
    requires m.node.state != Follower
    ensures var m1 := After(m, Heartbeat(m.node.currentTerm, leader));
            && m1.node.state == Follower && m1.node.votedFor == -1
            && m1.node.currentTerm == m.node.currentTerm && m1.node.log == m.node.log
            && Grants(m1, Asking(m.node, m.node.currentTerm, second))
  {
    assert Splice(m.node.log, 0, []) == m.node.log;
  }

  // Only a leader grants a vote without being a follower, and it forgets it on the next request.
  lemma LeadersVoteIsLost(m: Machine, req: RequestVoteRequest, second: int)
    requires Grants(m, req) && After(m, VoteRequest(req)).node.state != Follower
    requires second in m.node.peers && second != req.candidateId
    ensures var m1 := After(m, VoteRequest(req));
            VotesAgain(m1, [Heartbeat(req.term, req.candidateId)], req, Asking(m1.node, req.term, second))
  {
    var m1 := After(m, VoteRequest(req));
    var e := Heartbeat(req.term, req.candidateId);
    HeartbeatFreesVote(m1, req.candidateId, second);
    assert PossibleRun(After(m1, e), []) && [e][1..] == [];
    assert AfterAll(m1, [e]) == AfterAll(After(m1, e), []);
  }

  predicate HasOtherPeer(n: Node, p: int) { exists q :: q in n.peers && q != p }

  // In every state that a server can reach, by whatever events: a vote for a peer is durable exactly
  // when the log is not empty and the voter a follower once it is granted, or when there is no other
  // peer to ask for it.
  lemma VoteDurableIff(id: int, peers: set<int>, before: seq<Event>, req: RequestVoteRequest)
    requires PossibleRun(NewMachine(id, peers), before)
    requires id >= 0 && -1 !in peers && req.candidateId in peers
    requires Grants(AfterAll(NewMachine(id, peers), before), req)
    ensures var m := AfterAll(NewMachine(id, peers), before);
            var m1 := After(m, VoteRequest(req));
            (forall es, other :: !VotesAgain(m1, es, req, other)) <==>
            (|m.node.log| > 0 && m1.node.state == Follower) || !HasOtherPeer(m.node, req.candidateId)
  {
    var m := AfterAll(NewMachine(id, peers), before);
    var m1 := After(m, VoteRequest(req));
    ReachableOk(NewMachine(id, peers), before);
    if |m.node.log| > 0 && m1.node.state == Follower {
      forall es, other ensures !VotesAgain(m1, es, req, other) {
        if VotesAgain(m1, es, req, other) {
          VoteIsDurable(m, req, es, other);
        }
      }
    } else if HasOtherPeer(m.node, req.candidateId) {
      var second :| second in m.node.peers && second != req.candidateId;
      if |m.node.log| == 0 {
        VoteIsLost(m, req, second);
      } else {
        LeadersVoteIsLost(m, req, second);
      }
    }
  }

  // ---------- harmful events ----------

  // After an event that is not harmless, at most one request of the term's leader is needed before
  // the server grants anybody else its vote in the term.
  lemma HarmfulLosesVote(m: Machine, e: Event, t: int, p: int, second: int)
    requires Bound(m, t, p) && Possible(m, e) && !Harmless(m, e, t)
    ensures Grants(After(m, e), Asking(m.node, t, second)) ||
            Grants(After(After(m, e), Heartbeat(t, p)), Asking(m.node, t, second))
  {
    if e.LeaderStart? {
      HeartbeatFreesVote(After(m, e), p, second);
    }
  }

  // ---------- how a server gets there ----------

  function Ping(): LogEntry { LogEntry(Other("ping"), 1) }

  function FirstEntry(): Event { AppendRequest(AppendEntriesRequest(1, 2, -1, -1, [Ping()], -1)) }

  function Yes(race: nat, voter: int, term: int): Event { VoteReply(voter, race, RequestVoteResponse(term, true)) }

  function AskedBy(candidate: int, term: int): RequestVoteRequest { RequestVoteRequest(term, candidate, 0, 1) }

  function Server1(): Machine { NewMachine(1, {2, 3, 4, 5}) }

  function AfterFirstEntry(): Machine { After(Server1(), FirstEntry()) }

  lemma HasFirstEntry()
    ensures AfterFirstEntry().node == Server1().node.(currentTerm := 1, log := [Ping()])
  {
    assert [][..0] + [Ping()][0..] == [Ping()];
  }

  function WinsButWaits(): seq<Event> {
    [FirstEntry(), ElectionTimeout, Yes(0, 2, 2), Yes(0, 3, 2), VoteRequest(AskedBy(4, 3))]
  }

  function OutvotedBeforeStart(): Machine {
    var m := After(AfterFirstEntry(), ElectionTimeout);
    var n := m.node.(races := [Race(2, {1, 2, 3})], starting := multiset{0});
    After(m.(node := n), VoteRequest(AskedBy(4, 3)))
  }

  // A candidate of its first election, which has counted the given votes.
  predicate Counting(n: Node, voters: set<int>) {
    n.state == Candidate && n.peers == {2, 3, 4, 5} && n.races == [Race(2, voters)] && n.starting == multiset{}
  }

  lemma SecondVoteCounted(n: Node)
    requires Counting(n, {1})
    ensures HandleVoteReply(n, 2, 0, RequestVoteResponse(2, true)) == n.(races := [Race(2, {1, 2})])
  {
    assert {1} + {2} == {1, 2} && |{1, 2}| == 2 && |{2, 3, 4, 5}| == 4;
    assert n.races[0 := Race(2, {1, 2})] == [Race(2, {1, 2})];
  }

  lemma ThirdVoteCounted(n: Node)
    requires Counting(n, {1, 2})
    ensures HandleVoteReply(n, 3, 0, RequestVoteResponse(2, true))
            == n.(races := [Race(2, {1, 2, 3})], starting := multiset{0})
  {
    assert {1, 2} + {3} == {1, 2, 3} && |{1, 2, 3}| == 3 && |{2, 3, 4, 5}| == 4;
    assert n.races[0 := Race(2, {1, 2, 3})] == [Race(2, {1, 2, 3})];
  }

  lemma WinsButWaitsEnds()
    ensures PossibleRun(Server1(), WinsButWaits())
    ensures AfterAll(Server1(), WinsButWaits()) == OutvotedBeforeStart()
  {
    var es, m0 := WinsButWaits(), Server1();
    HasFirstEntry();
    var m1 := After(m0, es[0]);
    var m2 := After(m1, es[1]);
    SecondVoteCounted(m2.node);
    var m3 := After(m2, es[2]);
    ThirdVoteCounted(m3.node);
    var m4 := After(m3, es[3]);
    Unroll5(m0, es, m1, m2, m3, m4);
  }

  lemma Unroll5(m: Machine, es: seq<Event>, m1: Machine, m2: Machine, m3: Machine, m4: Machine)
    requires |es| == 5 && Possible(m, es[0]) && m1 == After(m, es[0])
    requires Possible(m1, es[1]) && m2 == After(m1, es[1])
    requires Possible(m2, es[2]) && m3 == After(m2, es[2])
    requires Possible(m3, es[3]) && m4 == After(m3, es[3])
    requires Possible(m4, es[4])
    ensures PossibleRun(m, es) && AfterAll(m, es) == After(m4, es[4])
  {
    var m5 := After(m4, es[4]);
    assert es[1..][0] == es[1] && es[1..][1..] == es[2..];
    assert es[2..][0] == es[2] && es[2..][1..] == es[3..];
    assert es[3..][0] == es[3] && es[3..][1..] == es[4..];
    assert es[4..][0] == es[4] && es[4..][1..] == [];
    assert PossibleRun(m5, []) && AfterAll(m5, []) == m5;
    assert PossibleRun(m4, es[4..]) && AfterAll(m4, es[4..]) == m5;
    assert PossibleRun(m3, es[3..]) && AfterAll(m3, es[3..]) == m5;
    assert PossibleRun(m2, es[2..]) && AfterAll(m2, es[2..]) == m5;
    assert PossibleRun(m1, es[1..]) && AfterAll(m1, es[1..]) == m5;
  }

  // From the start: one entry, a timeout, two votes that win term 2, and a vote for server 4 in term
  // 3 before the start of leadership runs. The start is harmful, and a request of server 4 then frees
  // the vote for server 5.
  lemma StartLosesVote()
    ensures var m := AfterAll(Server1(), WinsButWaits());
            && PossibleRun(Server1(), WinsButWaits()) && Bound(m, 3, 4)
            && Possible(m, LeaderStart(0)) && !Harmless(m, LeaderStart(0), 3)
            && Grants(After(After(m, LeaderStart(0)), Heartbeat(3, 4)), Asking(m.node, 3, 5))
  {
    WinsButWaitsEnds();
    HasFirstEntry();
    HeartbeatFreesVote(After(OutvotedBeforeStart(), LeaderStart(0)), 4, 5);
  }

  function TimesOutTwice(): seq<Event> {
    [FirstEntry(), ElectionTimeout, VoteRequest(AskedBy(4, 3)), ElectionTimeout, Save]
  }

  lemma TimesOutTwiceEnds()
    ensures PossibleRun(Server1(), TimesOutTwice())
    ensures var m := AfterAll(Server1(), TimesOutTwice());
            && Bound(m, 3, 4) && m.node.state == Candidate && m.node.currentTerm == 4
            && m.node.races == [Race(2, {1}), Race(4, {1})]
  {
    var es, m0 := TimesOutTwice(), Server1();
    HasFirstEntry();
    var m1 := After(m0, es[0]);
    var m2 := After(m1, es[1]);
    var m3 := After(m2, es[2]);
    var m4 := After(m3, es[3]);
    assert m4.node.races == [Race(2, {1}), Race(4, {1})];
    Unroll5(m0, es, m1, m2, m3, m4);
  }

  // From the start: one entry, a timeout into term 2, a vote for server 4 in term 3, and a timeout
  // into term 4. A late rejection of term 3 for the election of term 2 is harmful: it frees the vote of
  // term 3 for server 5.
  lemma SetBackLosesVote()
    ensures PossibleRun(Server1(), TimesOutTwice())
    ensures var m, late := AfterAll(Server1(), TimesOutTwice()), VoteReply(2, 0, RequestVoteResponse(3, false));
            && Bound(m, 3, 4) && Possible(m, late) && !Harmless(m, late, 3)
            && Grants(After(m, late), Asking(m.node, 3, 5))
  {
    TimesOutTwiceEnds();
    SetBackFrees(AfterAll(Server1(), TimesOutTwice()), 2, 0, 3, 5);
  }

  lemma SetBackFrees(m: Machine, voter: int, race: nat, t: int, second: int)
    requires race < |m.node.races| && m.node.races[race].term < t && m.node.state == Candidate
    ensures Grants(After(m, VoteReply(voter, race, RequestVoteResponse(t, false))), Asking(m.node, t, second))
  {
  }

  // ---------- what a crash takes away ----------

  // A crash right after a started election, a reply, a command or a wake-up takes the server back to
  // what an earlier crash would have; after a vote request, an AppendEntries request or a save it
  // finds its term, vote and log again, if the log is not empty.
  lemma CrashAfter(m: Machine, e: Event)
    requires Possible(m, e)
    ensures var n, n' := After(m, e).node, After(After(m, e), CrashAndRestart).node;
            if e.VoteRequest? || e.AppendRequest? || e.Save? then
              if n.log == [] then n'.currentTerm == 0 && n'.votedFor == -1 && n'.log == []
              else n'.currentTerm == n.currentTerm && n'.votedFor == n.votedFor && n'.log == n.log
            else if e.CrashAndRestart? then n' == n
            else n'.currentTerm == After(m, CrashAndRestart).node.currentTerm
                 && n'.votedFor == After(m, CrashAndRestart).node.votedFor
                 && n'.log == After(m, CrashAndRestart).node.log
  {
  }

  // ---------- acknowledgements ----------

  // No accepted request of the run replaces the given prefix of the log.
  predicate NeverReplaced(m: Machine, es: seq<Event>, prefix: Log)
    requires PossibleRun(m, es)
    decreases |es|
  {
    es == [] ||
    ((es[0].AppendRequest? ==> prefix <= After(m, es[0]).node.log) && NeverReplaced(After(m, es[0]), es[1..], prefix))
  }

  predicate Has(m: Machine, prefix: Log) {
    prefix <= m.node.log && m.disk.Some? && prefix <= m.disk.value.log
  }

  lemma AcceptedCovers(n: Node, req: AppendEntriesRequest)
    requires -1 <= req.prevLogIndex && HandleAppendEntries(n, req).1.success
    ensures EndOf(req) <= |HandleAppendEntries(n, req).0.log|
  {
  }

  lemma HasStays(m: Machine, e: Event, prefix: Log)
    requires Has(m, prefix) && prefix != [] && Possible(m, e)
    requires e.AppendRequest? ==> prefix <= After(m, e).node.log
    ensures Has(After(m, e), prefix)
  {
  }

  lemma {:induction false} HasThroughout(m: Machine, es: seq<Event>, prefix: Log)
    requires Has(m, prefix) && prefix != [] && PossibleRun(m, es) && NeverReplaced(m, es, prefix)
    ensures Has(AfterAll(m, es), prefix)
    decreases |es|
  {
    if es != [] {
      HasStays(m, es[0], prefix);
      HasThroughout(After(m, es[0]), es[1..], prefix);
    }
  }

  // What a server acknowledged is in its log after any number of crashes, unless a later request
  // that it accepted replaced it.
  lemma AcknowledgedIsDurable(m: Machine, req: AppendEntriesRequest, es: seq<Event>)
    requires -1 <= req.prevLogIndex && HandleAppendEntries(m.node, req).1.success
    requires PossibleRun(After(m, AppendRequest(req)), es)
    ensures var m1 := After(m, AppendRequest(req));
            && EndOf(req) <= |m1.node.log|
            && var acked := m1.node.log[..EndOf(req)];
            NeverReplaced(m1, es, acked) ==>
              acked <= AfterAll(m1, es).node.log && acked <= After(AfterAll(m1, es), CrashAndRestart).node.log
  {
    AcceptedCovers(m.node, req);
    var m1 := After(m, AppendRequest(req));
    var acked := m1.node.log[..EndOf(req)];
    if NeverReplaced(m1, es, acked) && acked != [] {
      HasThroughout(m1, es, acked);
    }
  }
}
