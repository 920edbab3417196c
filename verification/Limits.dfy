/**
 Why the four checks are there. For each of them: a run that makes every check up to its last
 step, skips one there, and breaks a property that checked runs keep. All runs are runs of a
 cluster of five servers.
 */
module Limits {
  import opened Chat
  import opened Logs
  import opened Consensus
  import opened Protocol
  import opened Scenarios

  // ---------- a term set back without the check on vote replies ----------

  // Server 1 asks server 2, which is in term 2, for a vote of term 1.
  lemma RejectedReached() returns (g: Global, req: RequestVoteRequest)
    ensures Cluster(-1, g) && g.nodes[1] == StartElection(Fresh(1)) && req.candidateId == 1
    ensures VoteReturn(2, 0, req, RequestVoteResponse(2, false)) in g.net
  {
    StartIsReached();
    g := TimeoutReached(-1, Start(), 1);
    g := TimeoutReached(-1, g, 2);
    g := TimeoutReached(-1, g, 2);
    assert g.nodes[2] == StartElection(StartElection(Fresh(2)));
    g, req := AskReached(-1, g, 1, 2, 0);
  }

  // It is in term 3 when the rejection arrives.
  lemma TermSetBackWithoutGuard() returns (g: Global, step: Step)
    ensures Cluster(-1, g) && Enabled(g, step) && !Guarded(g, step)
    ensures step.s in Next(g, step).nodes && Next(g, step).nodes[step.s].currentTerm < g.nodes[step.s].currentTerm
  {
    var req;
    g, req := RejectedReached();
    g := TimeoutReached(-1, g, 1);
    g := TimeoutReached(-1, g, 1);
    assert g.nodes[1] == StartElection(StartElection(StartElection(Fresh(1))));
    step := ReceiveVoteReply(1, 2, 0, req, RequestVoteResponse(2, false));
    assert Next(g, step) == AfterVoteReply(g, 1, 2, 0, RequestVoteResponse(2, false));
  }

  // ---------- two leaders without the check on starts of leadership ----------

  lemma FirstWin() returns (g: Global)
    ensures Cluster(-1, g)
    ensures g.apps == Start().apps
    ensures g.nodes == Start().nodes[2 := Voted(Fresh(2), 1, 1)][3 := Voted(Fresh(3), 1, 1)][1 := Won(Fresh(1), 2, 3)]
  {
    StartIsReached();
    FivePeers(1);
    g := WonReached(-1, Start(), 1, 2, 3);
  }

  // Server 1 wins term 1, and enters term 2 before it gets to start its leadership. Server 4 wins
  // term 2 and leads. Then the start of server 1 runs, in term 2.
  lemma TwoLeadersWithoutGuard() returns (g: Global, step: Step)
    ensures Cluster(-1, g) && Enabled(g, step) && !Guarded(g, step)
    ensures var g' := Next(g, step);
            && 1 in g'.nodes && 4 in g'.nodes
            && g'.nodes[1].state == Leader && g'.nodes[4].state == Leader
            && g'.nodes[1].currentTerm == g'.nodes[4].currentTerm
  {
    g := FirstWin();
    assert g.nodes[1] == Won(Fresh(1), 2, 3) && g.nodes[3] == Voted(Fresh(3), 1, 1);
    assert g.nodes[4] == Fresh(4) && g.nodes[5] == Fresh(5);
    g := TimeoutReached(-1, g, 1);
    g := SecondLeader(g);
    step := StartLeading(1, 0);
  }

  // Server 4 leads term 2 with the votes of servers 3 and 5.
  lemma SecondLeader(g: Global) returns (g': Global)
    requires Cluster(-1, g) && g.nodes[3] == Voted(Fresh(3), 1, 1) && g.nodes[4] == Fresh(4) && g.nodes[5] == Fresh(5)
    ensures Onward(-1, g, g') && g'.nodes[1] == g.nodes[1] && g'.nodes[2] == g.nodes[2]
    ensures g'.nodes[4] == RunStart(Won(StartElection(Fresh(4)), 3, 5), 1)
    ensures g'.nodes[3] == Voted(Voted(Fresh(3), 1, 1), 2, 4) && g'.nodes[5] == Voted(Fresh(5), 2, 4)
  {
    FivePeers(4);
    g' := TimeoutReached(-1, g, 4);
    g' := WonReached(-1, g', 4, 3, 5);
    g' := StartReached(-1, g', 4, 1);
  }

  // ---------- a leader is overtaken ----------

  function TwoEntries(): Log { [LogEntry(Other("x"), 1), LogEntry(Other("y"), 1)] }

  function OneEntry(): Log { [LogEntry(Other("z"), 2)] }

  // The leader of term 1, with two entries and a round of requests begun.
  function FirstLeader(): Node {
    BeginRound(RunStart(Won(Fresh(1), 2, 3), 0).(log := TwoEntries()))
  }

  lemma FirstStarted() returns (g: Global)
    ensures g.apps == Start().apps
    ensures Cluster(-1, g) && g.nodes[1] == RunStart(Won(Fresh(1), 2, 3), 0)
    ensures g.nodes[2] == Voted(Fresh(2), 1, 1) && g.nodes[3] == Voted(Fresh(3), 1, 1)
    ensures g.nodes[4] == Fresh(4) && g.nodes[5] == Fresh(5)
  {
    g := FirstWin();
    assert g.nodes[1] == Won(Fresh(1), 2, 3);
    g := StartReached(-1, g, 1, 0);
  }

  lemma FirstLeaderReached() returns (g: Global)
    ensures g.apps == Start().apps
    ensures Cluster(-1, g) && g.nodes[1] == FirstLeader()
    ensures g.nodes[2] == Voted(Fresh(2), 1, 1) && g.nodes[3] == Voted(Fresh(3), 1, 1)
    ensures g.nodes[4] == Fresh(4) && g.nodes[5] == Fresh(5)
  {
    g := FirstStarted();
    g := SubmitReached(-1, g, 1, Other("x"));
    g := SubmitReached(-1, g, 1, Other("y"));
    assert [] + [LogEntry(Other("x"), 1)] + [LogEntry(Other("y"), 1)] == TwoEntries();
    g := RoundReached(-1, g, 1);
  }

  // The request that carries the two entries to server 2.
  function LateRequest(): AppendEntriesRequest { AppendEntriesRequest(1, 1, -1, -1, TwoEntries(), -1) }

  lemma FirstRequest(d: int)
    requires d in FIVE && d != 1
    ensures Lookup(FirstLeader().nextIndex, d) == 0
    ensures BuildAppendRequest(FirstLeader(), d, 1) == LateRequest()
  {
    assert TwoEntries()[0..] == TwoEntries();
  }

  // Server 2 acknowledges the two entries, and that reply is delayed.
  lemma AcknowledgedReached() returns (g: Global)
    ensures Cluster(-1, g) && g.nodes[1] == FirstLeader()
    ensures g.nodes[2].currentTerm == 1 && g.nodes[2].state == Follower && g.nodes[2].log == TwoEntries()
    ensures AppendReturn(2, LateRequest(), AppendEntriesResponse(1, true, 0, 0)) in g.net
    ensures OthersIdle(g) && forall s | s in FIVE :: g.apps[s] == App([], 0, map[])
  {
    g := FirstLeaderReached();
    FirstRequest(2);
    assert [][..0] + TwoEntries()[0..] == TwoEntries();
    g := ReplicateReached(-1, g, 1, 2);
  }

  // The leader of term 2, with one entry of its own.
  function SecondLeaderNode(): Node { RunStart(Won(StartElection(Fresh(4)), 3, 5), 1).(log := OneEntry()) }

  // Servers 3, 4 and 5 as they are when server 1 has won the first election.
  ghost predicate OthersIdle(g: Global)
    requires g.nodes.Keys == FIVE
  {
    g.nodes[3] == Voted(Fresh(3), 1, 1) && g.nodes[4] == Fresh(4) && g.nodes[5] == Fresh(5)
  }

  // Server 4 leads term 2, with one entry and a round of requests begun.
  lemma SecondLeaderReady(g: Global) returns (g': Global)
    requires Cluster(-1, g) && OthersIdle(g)
    ensures Onward(-1, g, g') && g'.nodes[1] == g.nodes[1] && g'.nodes[2] == g.nodes[2]
    ensures g'.nodes[3] == Voted(Voted(Fresh(3), 1, 1), 2, 4)
    ensures g'.nodes[4] == BeginRound(SecondLeaderNode()) && g'.nodes[5] == Voted(Fresh(5), 2, 4)
  {
    g' := SecondLeader(g);
    g' := SubmitReached(-1, g', 4, Other("z"));
    assert [] + [LogEntry(Other("z"), 2)] == OneEntry();
    g' := RoundReached(-1, g', 4);
  }

  // The request of the leader of term 2 that carries its entry.
  function SecondRequest(): AppendEntriesRequest { AppendEntriesRequest(2, 4, -1, -1, OneEntry(), -1) }

  lemma SecondRequestBuilt(d: int)
    requires d in FIVE && d != 4
    ensures Lookup(BeginRound(SecondLeaderNode()).nextIndex, d) == 0
    ensures BuildAppendRequest(BeginRound(SecondLeaderNode()), d, 2) == SecondRequest()
  {
    assert OneEntry()[0..] == OneEntry();
  }

  // A server of term 1 that took the entry of the leader of term 2.
  function Overtaken(n: Node): Node { BecomeFollower(n, 2).(log := OneEntry()) }

  predicate HasTwoEntries(n: Node) { n.currentTerm == 1 && n.log == TwoEntries() && n.commitIndex == -1 }

  lemma Overtakes(n: Node)
    requires HasTwoEntries(n)
    ensures HandleAppendEntries(n, SecondRequest()).0 == Overtaken(n)
  {
    assert Overlap(TwoEntries(), 0, OneEntry()) == 0;
    assert TwoEntries()[..0] + OneEntry()[0..] == OneEntry();
  }

  // Server 4 replaces the two entries in the log of server 1.
  lemma OvertakenReached(g: Global) returns (g': Global)
    requires Cluster(-1, g) && OthersIdle(g) && HasTwoEntries(g.nodes[1])
    ensures Onward(-1, g, g') && g'.nodes[1] == Overtaken(g.nodes[1]) && g'.nodes[2] == g.nodes[2]
    ensures g'.nodes[3] == Voted(Voted(Fresh(3), 1, 1), 2, 4)
    ensures g'.nodes[4] == BeginRound(SecondLeaderNode()) && g'.nodes[5] == Voted(Fresh(5), 2, 4)
  {
    g' := SecondLeaderReady(g);
    SecondRequestBuilt(1);
    Overtakes(g.nodes[1]);
    g' := ReplicateReached(-1, g', 4, 1);
  }

  // ---------- an entry ahead of its server without the check on requests ----------

  // The request of term 1 that server 1 builds as a follower in term 2.
  function StrayRequest(): AppendEntriesRequest { AppendEntriesRequest(1, 1, -1, -1, OneEntry(), -1) }

  lemma StrayRequestBuilt()
    ensures var n := Overtaken(FirstLeader());
            && 1 in n.rounds && 2 in n.peers && Lookup(n.nextIndex, 2) == 0
            && BuildAppendRequest(n, 2, 1) == StrayRequest()
  {
    assert OneEntry()[0..] == OneEntry();
  }

  lemma StrayRequestTaken(n: Node)
    requires n.currentTerm == 1 && n.state == Follower && n.log == TwoEntries()
    ensures var n' := HandleAppendEntries(n, StrayRequest()).0; n'.currentTerm == 1 && n'.log == OneEntry()
  {
    assert Overlap(TwoEntries(), 0, OneEntry()) == 0;
    assert TwoEntries()[..0] + OneEntry()[0..] == OneEntry();
  }

  // The round that server 1 began as leader of term 1 sends what it has as a follower in term 2.
  // The request to server 2 claims term 1 and carries an entry of term 2.
  lemma EntryAheadWithoutGuard() returns (g: Global, step: Step)
    ensures Cluster(-1, g) && Enabled(g, step) && !Guarded(g, step)
    ensures var g1, receive := Next(g, step), ReceiveAppend(2, StrayRequest());
            && Enabled(g1, receive) && Guarded(g1, receive)
            && 2 in Next(g1, receive).nodes
            && var n := Next(g1, receive).nodes[2];
               |n.log| > 0 && n.log[0].term > n.currentTerm
  {
    g := AcknowledgedReached();
    g := OvertakenReached(g);
    step := Step.SendAppend(1, 2, 1);
    StrayRequestBuilt();
    StrayRequestTaken(g.nodes[2]);
    assert AppendCall(2, StrayRequest()) in Next(g, step).net && Next(g, step).nodes[2] == g.nodes[2];
  }

  // ---------- a build out of range without the check on requests ----------

  function LateReply(): AppendEntriesResponse { AppendEntriesResponse(1, true, 0, 0) }

  // The leader of term 1 after the acknowledgement of server 2.
  function Acknowledging(): Node {
    FirstLeader().(nextIndex := FirstLeader().nextIndex[2 := 2], matchIndex := FirstLeader().matchIndex[2 := 1])
  }

  lemma OneAckCommitsNothing()
    ensures HandleAppendReply(FirstLeader(), 2, LateRequest(), LateReply()) == Acknowledging()
  {
    var n := Acknowledging();
    assert Acknowledge(FirstLeader(), 2, 2) == n;
    assert Matched(n, 1) == {2} && Matched(n, 0) == {2};
    FivePeers(1);
    assert !Committable(n, 1) && !Committable(n, 0);
  }

  lemma AcknowledgingReached() returns (g: Global)
    ensures Cluster(-1, g) && g.nodes[1] == Acknowledging() && OthersIdle(g)
  {
    g := AcknowledgedReached();
    OneAckCommitsNothing();
    g := AppendReplyReached(-1, g, 1, 2, LateRequest(), LateReply());
  }

  // Server 1 processes the acknowledgement of its two entries, and loses one of them to the leader
  // of term 2. The round that it began before goes on to build a request to server 2, and reads
  // past the end of the log.
  lemma BuildOutOfRangeWithoutGuard() returns (g: Global)
    ensures Cluster(-1, g)
    ensures var n := g.nodes[1]; 1 in n.rounds && 2 in n.peers && !LeadsRound(n, 1) && Lookup(n.nextIndex, 2) > |n.log|
  {
    g := AcknowledgingReached();
    g := OvertakenReached(g);
  }

  // ---------- an index out of range without the check on AppendEntries replies ----------

  // Server 1 leading again, in term 3.
  function ThirdLeader(): Node { RunStart(Won(Overtaken(FirstLeader()), 4, 5), 1) }

  lemma ThirdLeaderReached() returns (g: Global)
    ensures Cluster(-1, g) && g.nodes[1] == ThirdLeader()
    ensures AppendReturn(2, LateRequest(), LateReply()) in g.net
  {
    g := AcknowledgedReached();
    g := OvertakenReached(g);
    g := LeadReached(-1, g, 1, 4, 5);
  }

  lemma LateReplyOverruns()
    ensures var n := HandleAppendReply(ThirdLeader(), 2, LateRequest(), LateReply());
            n.state == Leader && 2 in n.peers && Lookup(n.nextIndex, 2) > |n.log|
  {
  }

  // Server 1 leads again in term 3 with one entry, and the delayed reply makes it believe that
  // server 2 has two: the next request to server 2 would read past the end of its log.
  lemma IndexOutOfRangeWithoutGuard() returns (g: Global, step: Step)
    ensures Cluster(-1, g) && Enabled(g, step) && !Guarded(g, step)
    ensures 1 in Next(g, step).nodes
    ensures var n := Next(g, step).nodes[1]; n.state == Leader && 2 in n.peers && Lookup(n.nextIndex, 2) > |n.log|
  {
    g := ThirdLeaderReached();
    LateReplyOverruns();
    step := ReceiveAppendReply(1, 2, LateRequest(), LateReply());
    assert Next(g, step) == AfterAppendReply(g, 1, 2, LateRequest(), LateReply());
  }
}
