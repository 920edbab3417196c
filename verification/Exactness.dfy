/**
 For each of the four checks, what a step that fails it does to the property that the check is there
 for, as an exact condition: the term of a candidate, the majority behind a new leader, what a
 request stands for and reads, the indexes that an acknowledgement sets. A lemma that requires
 Valid() speaks of every run of the code, whatever checks were skipped before; one that requires
 ValidAndGuarded() of runs that made every check so far.
 */
module Exactness {
  import opened Logs
  import opened Consensus
  import opened Protocol
  import opened Invariants
  import opened Replication
  import opened Safety
  import opened Theorems
  import opened Leaders

  // ---------- what holds in every run of the code ----------

  ghost predicate CandidateSane(n: Node) {
    && |n.races| > 0 && n.races[|n.races| - 1].term == n.currentTerm && n.votedFor == n.id
    && (n.peers != {} ==> (WinsRace(n, |n.races| - 1) <==> |n.races| - 1 in n.starting))
  }

  ghost predicate NodeSane(servers: set<int>, s: int, n: Node) {
    && n.id == s && s >= 0 && s in servers && n.peers == servers - {s}
    && (n.state == Follower ==> n.votedFor != n.id)
    && (n.state == Candidate ==> CandidateSane(n))
    && (forall e | e in n.starting :: e < |n.races| && n.peers != {})
  }

  predicate MsgSane(servers: set<int>, m: Msg) {
    match m
    case VoteCall(dst, _, r) => dst != r.candidateId && dst in servers && r.candidateId in servers
    case VoteReturn(v, _, r, _) => v != r.candidateId && v in servers && r.candidateId in servers
    case AppendCall(_, r) => -1 <= r.prevLogIndex
    case AppendReturn(_, r, resp) =>
      -1 <= r.prevLogIndex && resp.conflictIndex >= 0 && (resp.success ==> resp.term == r.term)
  }

  ghost predicate Sane(g: Global) {
    && (forall s | s in g.nodes :: NodeSane(g.hist.servers, s, g.nodes[s]))
    && (forall m | m in g.net :: MsgSane(g.hist.servers, m))
  }

  lemma TimeoutSane(servers: set<int>, s: int, n: Node)
    requires NodeSane(servers, s, n)
    ensures NodeSane(servers, s, StartElection(n))
  {
    assert |n.peers| == 0 ==> n.peers == {};
  }

  lemma VoteRequestSane(servers: set<int>, s: int, n: Node, req: RequestVoteRequest)
    requires NodeSane(servers, s, n) && req.candidateId != s
    ensures NodeSane(servers, s, HandleRequestVote(n, req).0)
  {
  }

  lemma CountSane(servers: set<int>, s: int, n: Node, race: nat, voter: int)
    requires NodeSane(servers, s, n) && n.state == Candidate && race < |n.races| && n.peers != {}
    ensures NodeSane(servers, s, CountAndSpawn(n, race, voter))
  {
    var voters := n.races[race].voters;
    SubsetSize(voters, voters + {voter});
  }

  lemma VoteReplySane(servers: set<int>, s: int, n: Node, voter: int, race: nat, resp: RequestVoteResponse)
    requires NodeSane(servers, s, n) && race < |n.races| && n.peers != {}
    ensures NodeSane(servers, s, HandleVoteReply(n, voter, race, resp))
  {
    if n.state == Candidate { CountSane(servers, s, n, race, voter); }
  }

  lemma QuietSane(servers: set<int>, s: int, n: Node, n': Node)
    requires NodeSane(servers, s, n) && n'.id == n.id && n'.peers == n.peers
    requires n'.races == n.races && n'.starting <= n.starting
    requires n'.state == Follower ==> n'.votedFor == -1 || (n.state == Follower && n'.votedFor == n.votedFor)
    requires n'.state == Candidate ==> n.state == Candidate && n'.starting == n.starting
    requires n'.state == Candidate ==> n'.currentTerm == n.currentTerm && n'.votedFor == n.votedFor
    ensures NodeSane(servers, s, n')
  {
  }

  lemma AppendSane(servers: set<int>, s: int, n: Node, req: AppendEntriesRequest)
    requires NodeSane(servers, s, n)
    ensures NodeSane(servers, s, HandleAppendEntries(n, req).0)
  {
    QuietSane(servers, s, n, HandleAppendEntries(n, req).0);
  }

  lemma AppendReplySane(servers: set<int>, s: int, n: Node, f: int,
                        req: AppendEntriesRequest, resp: AppendEntriesResponse)
    requires NodeSane(servers, s, n)
    ensures NodeSane(servers, s, HandleAppendReply(n, f, req, resp))
  {
    QuietSane(servers, s, n, HandleAppendReply(n, f, req, resp));
  }

  lemma ElectionStepSane(servers: set<int>, g: Global, step: Step)
    requires Enabled(g, step) && NodeSane(servers, step.s, g.nodes[step.s])
    requires step.Timeout? || step.ReceiveVoteRequest? || step.ReceiveVoteReply? || step.StartLeading?
    requires step.ReceiveVoteRequest? ==> step.req.candidateId != step.s
    requires step.ReceiveVoteReply? ==> g.nodes[step.s].peers != {}
    ensures step.s in Next(g, step).nodes
    ensures NodeSane(servers, step.s, Next(g, step).nodes[step.s])
  {
    var s, n := step.s, g.nodes[step.s];
    match step
    case Timeout(_) => TimeoutSane(servers, s, n);
    case ReceiveVoteRequest(_, _, req) => VoteRequestSane(servers, s, n, req);
    case ReceiveVoteReply(_, voter, race, _, resp) => VoteReplySane(servers, s, n, voter, race, resp);
    case StartLeading(_, race) => QuietSane(servers, s, n, RunStart(n, race));
  }

  lemma OtherStepSane(servers: set<int>, g: Global, step: Step)
    requires Enabled(g, step) && NodeSane(servers, step.s, g.nodes[step.s])
    requires !step.Timeout? && !step.ReceiveVoteRequest? && !step.ReceiveVoteReply? && !step.StartLeading?
    ensures step.s in Next(g, step).nodes
    ensures NodeSane(servers, step.s, Next(g, step).nodes[step.s])
  {
    var s, n := step.s, g.nodes[step.s];
    match step
    case ClientSubmit(_, command) => QuietSane(servers, s, n, Submit(n, command));
    case StartRound(_) => QuietSane(servers, s, n, BeginRound(n));
    case ReceiveAppend(_, req) => AppendSane(servers, s, n, req);
    case ReceiveAppendReply(_, f, req, resp) => AppendReplySane(servers, s, n, f, req, resp);
    case EmitCommits(_) => QuietSane(servers, s, n, SendCommits(n));
    case _ =>
  }

  lemma StepNodeSane(g: Global, step: Step)
    requires Sane(g) && Enabled(g, step)
    ensures step.s in Next(g, step).nodes
    ensures NodeSane(g.hist.servers, step.s, Next(g, step).nodes[step.s])
  {
    var servers := g.hist.servers;
    match step {
      case ReceiveVoteRequest(s, race, req) =>
        assert MsgSane(servers, VoteCall(s, race, req));
        ElectionStepSane(servers, g, step);
      case ReceiveVoteReply(s, voter, race, req, resp) =>
        assert MsgSane(servers, VoteReturn(voter, race, req, resp)) && voter in g.nodes[s].peers;
        ElectionStepSane(servers, g, step);
      case Timeout(_) => ElectionStepSane(servers, g, step);
      case StartLeading(_, _) => ElectionStepSane(servers, g, step);
      case _ => OtherStepSane(servers, g, step);
    }
  }

  lemma StepNetSane(g: Global, step: Step)
    requires Sane(g) && Enabled(g, step)
    ensures forall m | m in Next(g, step).net :: MsgSane(g.hist.servers, m)
  {
    var n := g.nodes[step.s];
    match step
    case ReceiveVoteRequest(s, race, req) => assert MsgSane(g.hist.servers, VoteCall(s, race, req));
    case ReceiveAppend(s, req) => assert MsgSane(g.hist.servers, AppendCall(s, req));
    case _ =>
  }

  lemma VoteRequestServers(g: Global, s: int, race: nat, req: RequestVoteRequest)
    requires s in g.nodes
    ensures AfterVoteRequest(g, s, race, req).hist.servers == g.hist.servers
  {
    var n' := HandleRequestVote(g.nodes[s], req).0;
    assert Close(g.hist, g.nodes[s], n').servers == g.hist.servers;
  }

  lemma AppendServers(g: Global, s: int, req: AppendEntriesRequest)
    requires s in g.nodes
    ensures AfterAppend(g, s, req).hist.servers == g.hist.servers
  {
  }

  lemma SameServers(g: Global, step: Step)
    requires Enabled(g, step)
    ensures Next(g, step).hist.servers == g.hist.servers
  {
    match step
    case ReceiveVoteRequest(s, race, req) => VoteRequestServers(g, s, race, req);
    case ReceiveAppend(s, req) => AppendServers(g, s, req);
    case _ =>
  }

  lemma StepSane(g: Global, step: Step)
    requires Sane(g) && Enabled(g, step)
    ensures Sane(Next(g, step))
  {
    SameServers(g, step);
    StepOthers(g, step);
    StepNodeSane(g, step);
    StepNetSane(g, step);
  }

  lemma {:induction false} RunSane(run: Run, i: nat)
    requires run.Valid() && i < |run.states|
    ensures Sane(run.states[i])
  {
    if i == 0 {
      var g := run.states[0];
      forall s | s in g.nodes ensures NodeSane(g.hist.servers, s, g.nodes[s]) {
        assert InitialNode(g.nodes[s], s, g.hist.servers);
      }
    } else {
      RunSane(run, i - 1);
      assert run.StepAt(i - 1);
      StepSane(run.states[i - 1], run.steps[i - 1]);
    }
  }

  // ---------- replies to vote requests ----------

  // A vote reply sets a term back exactly if it fails the check.
  lemma TermKeptIff(n: Node, voter: int, race: nat, resp: RequestVoteResponse)
    requires race < |n.races|
    ensures HandleVoteReply(n, voter, race, resp).currentTerm >= n.currentTerm <==> KeepsItsTerm(n, race, resp)
  {
  }

  // ---------- starts of leadership ----------

  // The server still has its own vote, and a majority of votes in a race of its own term.
  ghost predicate HoldsItsTerm(n: Node) {
    && n.votedFor == n.id && |n.races| > 0
    && n.races[|n.races| - 1].term == n.currentTerm && WinsRace(n, |n.races| - 1)
  }

  // A server that a spawned start makes leader has its own vote and those of a majority for its
  // present term exactly if the start passes the check.
  lemma WinnerHoldsItsTermIff(run: Run, i: nat, s: int, race: nat)
    requires run.Valid() && Within(run, i, s) && Enabled(run.states[i], StartLeading(s, race))
    requires NodeAt(run, i, s).state != Leader
    ensures HoldsItsTerm(RunStart(NodeAt(run, i, s), race)) <==> MayStart(NodeAt(run, i, s))
  {
    RunSane(run, i);
    assert NodeSane(run.states[i].hist.servers, s, NodeAt(run, i, s));
  }

  ghost predicate RacesSorted(n: Node) {
    && (forall e, f | 0 <= e < f < |n.races| :: n.races[e].term < n.races[f].term)
    && (forall e | 0 <= e < |n.races| :: n.races[e].term <= n.currentTerm)
  }

  lemma StepRacesSorted(g: Global, step: Step)
    requires Enabled(g, step) && RacesSorted(g.nodes[step.s])
    requires step.s in Next(g, step).nodes && Next(g, step).nodes[step.s].currentTerm >= g.nodes[step.s].currentTerm
    ensures RacesSorted(Next(g, step).nodes[step.s])
  {
    var n, n' := g.nodes[step.s], Next(g, step).nodes[step.s];
    StepRaces(g, step);
    if step.Timeout? {
      assert n' == StartElection(n);
    } else {
      SameRaceCount(g, step);
    }
  }

  lemma SameRaceCount(g: Global, step: Step)
    requires Enabled(g, step) && !step.Timeout?
    ensures step.s in Next(g, step).nodes && |Next(g, step).nodes[step.s].races| == |g.nodes[step.s].races|
  {
  }

  lemma {:induction false} RunRacesSorted(run: Run, i: nat, s: int)
    requires run.ValidAndGuarded() && Within(run, i, s)
    ensures RacesSorted(NodeAt(run, i, s))
  {
    if i == 0 {
      assert InitialNode(NodeAt(run, 0, s), s, run.states[0].hist.servers);
    } else {
      RunStepPrecedes(run, i - 1);
      RunRacesSorted(run, i - 1, s);
      assert run.StepAt(i - 1) && ServerKeeps(run.states[i - 1], run.states[i], s);
      if run.steps[i - 1].s == s {
        StepRacesSorted(run.states[i - 1], run.steps[i - 1]);
      } else {
        StepOthers(run.states[i - 1], run.steps[i - 1]);
      }
    }
  }

  // In a run that made every check so far it is enough to look at the term again: a start that
  // finds its server a candidate of the term in which the votes were counted passes the check.
  lemma SameTermMayStart(run: Run, i: nat, s: int, race: nat)
    requires run.ValidAndGuarded() && Within(run, i, s) && Enabled(run.states[i], StartLeading(s, race))
    requires NodeAt(run, i, s).state == Candidate
    requires race < |NodeAt(run, i, s).races| && NodeAt(run, i, s).races[race].term == NodeAt(run, i, s).currentTerm
    ensures MayStart(NodeAt(run, i, s))
  {
    RunRacesSorted(run, i, s);
    NodeAtOk(run, i, s);
  }

  // ---------- AppendEntries replies ----------

  // A success reply leaves the next index in range exactly if it ends within the leader's log.
  lemma NextIndexInRangeIff(run: Run, i: nat, s: int, f: int, req: AppendEntriesRequest, resp: AppendEntriesResponse)
    requires run.Valid() && Within(run, i, s) && Enabled(run.states[i], ReceiveAppendReply(s, f, req, resp))
    requires NodeAt(run, i, s).state == Leader && resp.success && resp.term <= NodeAt(run, i, s).currentTerm
    ensures var n := NodeAt(run, i, s);
            var n' := HandleAppendReply(n, f, req, resp);
            0 <= Lookup(n'.nextIndex, f) <= |n'.log| <==> EndOf(req) <= |n.log|
  {
    RunSane(run, i);
    assert MsgSane(run.states[i].hist.servers, AppendReturn(f, req, resp));
  }

  // A reply that passes the check ends there, if every check was made so far.
  lemma CheckedReplyEndsWithin(run: Run, i: nat, s: int, f: int, req: AppendEntriesRequest, resp: AppendEntriesResponse)
    requires run.ValidAndGuarded() && Within(run, i, s)
    requires Enabled(run.states[i], ReceiveAppendReply(s, f, req, resp))
    requires NodeAt(run, i, s).state == Leader && resp.success && resp.term <= NodeAt(run, i, s).currentTerm
    requires CountsOwnTerm(NodeAt(run, i, s), req, resp)
    ensures EndOf(req) <= |NodeAt(run, i, s).log|
  {
    RunInv(run, i);
    NodeAtOk(run, i, s);
    CallsOk(run.states[i], AppendReturn(f, req, resp));
  }

  // A success reply is an acknowledgement in the leader's own term exactly if it passes the check;
  // so the matchIndex it sets is backed by one exactly if it does, or if that index is -1, or if
  // the same peer acknowledged the same length in the leader's term as well.
  lemma MatchIndexBackedIff(run: Run, i: nat, s: int, f: int, req: AppendEntriesRequest, resp: AppendEntriesResponse)
    requires run.Valid() && Within(run, i, s) && Enabled(run.states[i], ReceiveAppendReply(s, f, req, resp))
    requires NodeAt(run, i, s).state == Leader && resp.success && resp.term <= NodeAt(run, i, s).currentTerm
    ensures var n, net := NodeAt(run, i, s), run.states[i].net;
            var m := Lookup(HandleAppendReply(n, f, req, resp).matchIndex, f);
            && m == EndOf(req) - 1
            && (AckFor(net, s, n.currentTerm, f, m, req, resp) <==> CountsOwnTerm(n, req, resp))
            && (Acknowledged(net, s, n.currentTerm, f, m) <==>
                  CountsOwnTerm(n, req, resp) || m == -1 || AcknowledgedOtherwise(net, s, n.currentTerm, f, m, req))
  {
    RunSane(run, i);
    var n, net := NodeAt(run, i, s), run.states[i].net;
    assert MsgSane(run.states[i].hist.servers, AppendReturn(f, req, resp));
    var m := EndOf(req) - 1;
    if AcknowledgedOtherwise(net, s, n.currentTerm, f, m, req) {
      var r, p :| r != req && AckFor(net, s, n.currentTerm, f, m, r, p);
    } else if Acknowledged(net, s, n.currentTerm, f, m) && m != -1 {
      var r, p :| AckFor(net, s, n.currentTerm, f, m, r, p);
      assert r == req;
    }
  }

  ghost predicate AcknowledgedOtherwise(net: set<Msg>, s: int, t: int, f: int, m: int, req: AppendEntriesRequest) {
    exists r, p :: r != req && AckFor(net, s, t, f, m, r, p)
  }

  // ---------- requests of a round ----------

  // The terms in which a server began a round are terms that it led.
  ghost predicate RoundsLed(h: History, n: Node) {
    forall t | t in n.rounds :: t in h.elections && h.elections[t].leader == n.id && t in h.leaderLog
  }

  lemma StepRounds(g: Global, step: Step, t: int)
    requires Enabled(g, step) && step.s in Next(g, step).nodes && t in Next(g, step).nodes[step.s].rounds
    ensures t in g.nodes[step.s].rounds || LeadsRound(g.nodes[step.s], t)
  {
    var n := g.nodes[step.s];
    match step
    case ReceiveVoteRequest(_, _, req) => VoteRequestRounds(n, req);
    case ReceiveVoteReply(_, voter, race, _, resp) => VoteReplyRounds(n, voter, race, resp);
    case ReceiveAppend(_, req) => AppendRounds(n, req);
    case ReceiveAppendReply(_, f, req, resp) => AppendReplyRounds(n, f, req, resp);
    case _ =>
  }

  lemma VoteRequestRounds(n: Node, req: RequestVoteRequest)
    ensures HandleRequestVote(n, req).0.rounds == n.rounds
  {
  }

  lemma VoteReplyRounds(n: Node, voter: int, race: nat, resp: RequestVoteResponse)
    requires race < |n.races|
    ensures HandleVoteReply(n, voter, race, resp).rounds == n.rounds
  {
  }

  lemma AppendRounds(n: Node, req: AppendEntriesRequest)
    ensures HandleAppendEntries(n, req).0.rounds == n.rounds
  {
  }

  lemma AppendReplyRounds(n: Node, f: int, req: AppendEntriesRequest, resp: AppendEntriesResponse)
    ensures HandleAppendReply(n, f, req, resp).rounds == n.rounds
  {
  }

  lemma LedRound(run: Run, i: nat, s: int, t: int)
    requires run.ValidAndGuarded() && Within(run, i, s) && LeadsRound(NodeAt(run, i, s), t)
    ensures var h := run.states[i].hist;
            && t in h.elections && h.elections[t].leader == s
            && t in h.leaderLog && h.leaderLog[t] == NodeAt(run, i, s).log
  {
    NodeAtOk(run, i, s);
  }

  lemma StepRoundsLed(run: Run, i: nat, s: int)
    requires run.ValidAndGuarded() && i < |run.steps| && Within(run, i, s) && Within(run, i + 1, s)
    requires RoundsLed(run.states[i].hist, NodeAt(run, i, s))
    requires HistoryGrows(run.states[i].hist, run.states[i + 1].hist)
    ensures RoundsLed(run.states[i + 1].hist, NodeAt(run, i + 1, s))
  {
    assert run.StepAt(i);
    NodeAtOk(run, i, s);
    HasId(run, i + 1, s);
    forall t | t in NodeAt(run, i + 1, s).rounds
      ensures t in NodeAt(run, i, s).rounds || LeadsRound(NodeAt(run, i, s), t)
    {
      if run.steps[i].s == s {
        StepRounds(run.states[i], run.steps[i], t);
      } else {
        StepOthers(run.states[i], run.steps[i]);
      }
    }
  }

  lemma {:induction false} RunRounds(run: Run, i: nat, s: int)
    requires run.ValidAndGuarded() && Within(run, i, s)
    ensures RoundsLed(run.states[i].hist, NodeAt(run, i, s)) && NodeAt(run, i, s).id == s
  {
    if i == 0 {
      assert InitialNode(NodeAt(run, 0, s), s, run.states[0].hist.servers);
    } else {
      RunStepPrecedes(run, i - 1);
      RunRounds(run, i - 1, s);
      StepRoundsLed(run, i - 1, s);
      HasId(run, i, s);
    }
  }

  lemma HasId(run: Run, i: nat, s: int)
    requires run.ValidAndGuarded() && Within(run, i, s)
    ensures NodeAt(run, i, s).id == s
  {
    NodeAtOk(run, i, s);
  }

  // A request built from a log stands for a prefix of another log exactly if the first is one.
  lemma BuiltRequestOfIff(n: Node, dst: int, term: int, leader: Log)
    requires 0 <= Lookup(n.nextIndex, dst) <= |n.log| && -1 <= n.commitIndex < |n.log|
    requires LogMatching(n.log, leader)
    ensures RequestOf(leader, BuildAppendRequest(n, dst, term)) <==> n.log <= leader
  {
    var req, at := BuildAppendRequest(n, dst, term), Lookup(n.nextIndex, dst);
    BuiltRequest(n, dst, term);
    if RequestOf(leader, req) {
      AgreeBefore(n.log, leader, at);
      SameFrom(n.log, leader, at, req);
      PrefixInParts(n.log, leader, at);
    }
  }

  lemma SameFrom(log: Log, leader: Log, at: nat, req: AppendEntriesRequest)
    requires at <= |log| && req.prevLogIndex == at - 1 && req.entries == log[at..] && RequestOf(leader, req)
    ensures |log| <= |leader| && forall i | at <= i < |log| :: log[i] == leader[i]
  {
    forall i | at <= i < |log| ensures log[i] == leader[i] {
      assert req.entries[i - at] == log[i];
    }
  }

  lemma PrefixInParts(log: Log, leader: Log, at: nat)
    requires at <= |log| <= |leader| && log[..at] == leader[..at]
    requires forall i | at <= i < |log| :: log[i] == leader[i]
    ensures log <= leader
  {
    forall i | 0 <= i < at ensures log[i] == leader[i] {
      assert log[..at][i] == leader[..at][i];
    }
  }

  // In a run that made every check so far: a request of a round stands for a prefix of the log of
  // the leader of its term, as every request of a checked run does, exactly if its sender's log is
  // one; and the sender's log is the whole of it while the sender passes the check.
  lemma RequestStandsIff(run: Run, i: nat, s: int, dst: int, roundTerm: int)
    requires run.ValidAndGuarded() && Within(run, i, s) && Enabled(run.states[i], Step.SendAppend(s, dst, roundTerm))
    ensures var n, h := NodeAt(run, i, s), run.states[i].hist;
            && roundTerm in h.leaderLog && roundTerm in h.elections && h.elections[roundTerm].leader == s
            && (RequestOf(h.leaderLog[roundTerm], BuildAppendRequest(n, dst, roundTerm)) <==>
                  n.log <= h.leaderLog[roundTerm])
            && (LeadsRound(n, roundTerm) ==> n.log == h.leaderLog[roundTerm])
  {
    var n, h := NodeAt(run, i, s), run.states[i].hist;
    RunRounds(run, i, s);
    MatchesLeader(run, i, s, roundTerm);
    CommitAt(run, i, s);
    BuiltRequestOfIff(n, dst, roundTerm, h.leaderLog[roundTerm]);
    if LeadsRound(n, roundTerm) { LedRound(run, i, s, roundTerm); }
  }

  lemma MatchesLeader(run: Run, i: nat, s: int, t: int)
    requires run.ValidAndGuarded() && Within(run, i, s) && t in run.states[i].hist.leaderLog
    ensures LogMatching(NodeAt(run, i, s).log, run.states[i].hist.leaderLog[t])
  {
    NodeAtOk(run, i, s);
    LeaderLogMatches(run.states[i].hist, NodeAt(run, i, s).log, NodeAt(run, i, s).currentTerm, t);
  }

  // No next index is ever negative, in any run of the code; so what a build reads is in range
  // exactly if the next index is not beyond the end of the sender's log.
  ghost predicate NextIndexesSane(n: Node) { forall p :: Lookup(n.nextIndex, p) >= 0 }

  lemma {:induction false} LastIndexBelow(log: Log, top: nat, term: int)
    requires top <= |log|
    ensures -1 <= LastIndexOfTerm(log, top, term) < top
  {
    if top > 0 && log[top - 1].term != term { LastIndexBelow(log, top - 1, term); }
  }

  lemma ReplyNextIndexes(n: Node, f: int, req: AppendEntriesRequest, resp: AppendEntriesResponse)
    requires NextIndexesSane(n) && -1 <= req.prevLogIndex && resp.conflictIndex >= 0
    ensures NextIndexesSane(HandleAppendReply(n, f, req, resp))
  {
    LastIndexBelow(n.log, |n.log|, resp.conflictTerm);
    var n' := HandleAppendReply(n, f, req, resp);
    forall p ensures Lookup(n'.nextIndex, p) >= 0 {
      assert Lookup(n.nextIndex, p) >= 0;
    }
  }

  lemma StartNextIndexes(n: Node)
    requires NextIndexesSane(n)
    ensures NextIndexesSane(StartLeader(n))
  {
    forall p ensures Lookup(StartLeader(n).nextIndex, p) >= 0 {
      assert Lookup(n.nextIndex, p) >= 0;
    }
  }

  lemma StepNextIndexes(g: Global, step: Step)
    requires Sane(g) && Enabled(g, step) && NextIndexesSane(g.nodes[step.s])
    ensures step.s in Next(g, step).nodes && NextIndexesSane(Next(g, step).nodes[step.s])
  {
    var n := g.nodes[step.s];
    match step
    case ReceiveVoteReply(_, voter, race, _, resp) =>
      StartNextIndexes(n);
      assert n.state != Leader ==> HandleVoteReply(n, voter, race, resp).nextIndex == n.nextIndex;
    case StartLeading(_, race) =>
      StartNextIndexes(n);
      assert RunStart(n, race).nextIndex == StartLeader(n).nextIndex;
    case ReceiveAppendReply(_, f, req, resp) =>
      assert MsgSane(g.hist.servers, AppendReturn(f, req, resp));
      ReplyNextIndexes(n, f, req, resp);
    case _ => SameNextIndexes(g, step);
  }

  lemma SameNextIndexes(g: Global, step: Step)
    requires Enabled(g, step) && !step.ReceiveVoteReply? && !step.StartLeading? && !step.ReceiveAppendReply?
    ensures step.s in Next(g, step).nodes && Next(g, step).nodes[step.s].nextIndex == g.nodes[step.s].nextIndex
  {
    var n := g.nodes[step.s];
    match step
    case ReceiveVoteRequest(_, _, req) => assert HandleRequestVote(n, req).0.nextIndex == n.nextIndex;
    case ReceiveAppend(_, req) => assert HandleAppendEntries(n, req).0.nextIndex == n.nextIndex;
    case _ =>
  }

  lemma {:induction false} RunNextIndexes(run: Run, i: nat, s: int)
    requires run.Valid() && i < |run.states| && s in run.states[i].nodes
    ensures NextIndexesSane(run.states[i].nodes[s])
  {
    if i == 0 {
      assert InitialNode(run.states[0].nodes[s], s, run.states[0].hist.servers);
    } else {
      assert run.StepAt(i - 1);
      RunSane(run, i - 1);
      StepOthers(run.states[i - 1], run.steps[i - 1]);
      RunNextIndexes(run, i - 1, s);
      if run.steps[i - 1].s == s { StepNextIndexes(run.states[i - 1], run.steps[i - 1]); }
    }
  }

  // What a build of a request reads of its sender's log: the entry before the next index, if there
  // is one, and everything from the next index on.
  predicate ReadsInRange(n: Node, dst: int) {
    var ni := Lookup(n.nextIndex, dst);
    (ni - 1 >= 0 ==> ni - 1 < |n.log|) && 0 <= ni <= |n.log|
  }

  lemma BuildInRangeIff(run: Run, i: nat, s: int, dst: int)
    requires run.Valid() && Within(run, i, s)
    ensures var n := NodeAt(run, i, s); ReadsInRange(n, dst) <==> Lookup(n.nextIndex, dst) <= |n.log|
  {
    RunNextIndexes(run, i, s);
  }

  // A sender that passes the check reads in range, if every check was made so far.
  lemma CheckedBuildInRange(run: Run, i: nat, s: int, dst: int, roundTerm: int)
    requires run.ValidAndGuarded() && Within(run, i, s) && dst in NodeAt(run, i, s).peers
    requires LeadsRound(NodeAt(run, i, s), roundTerm)
    ensures ReadsInRange(NodeAt(run, i, s), dst)
  {
    IndexesInRange(run, i, s, dst);
  }

  // ---------- entries ahead of their term ----------

  lemma SuffixAhead(log: Log, bound: int, at: nat, term: int)
    requires Sorted(log, bound) && at <= |log|
    ensures (exists e :: e in log[at..] && e.term > term) <==> at < |log| && LastLogTerm(log) > term
  {
    if at < |log| {
      assert log[|log| - 1] in log[at..];
    }
  }

  // In a run that made every check so far, a request of a round carries an entry of a later term
  // than its own exactly if its sender's log ends in one that the request reaches; and a sender
  // that passes the check never does.
  lemma EntryAheadIff(run: Run, i: nat, s: int, dst: int, roundTerm: int)
    requires run.ValidAndGuarded() && Within(run, i, s) && Enabled(run.states[i], Step.SendAppend(s, dst, roundTerm))
    ensures var n := NodeAt(run, i, s);
            && ((exists e :: e in BuildAppendRequest(n, dst, roundTerm).entries && e.term > roundTerm) <==>
                  Lookup(n.nextIndex, dst) < |n.log| && LastLogTerm(n.log) > roundTerm)
            && (LeadsRound(n, roundTerm) ==> forall e | e in n.log :: e.term <= roundTerm)
  {
    IndexesInRange(run, i, s, dst);
    var n := NodeAt(run, i, s);
    SuffixAhead(n.log, n.currentTerm, Lookup(n.nextIndex, dst), roundTerm);
  }

  ghost predicate Ahead(entries: Log, term: int) { exists i :: 0 <= i < |entries| && entries[i].term > term }

  // What the search skips agrees with the log, so it is not ahead.
  lemma {:induction false} OverlapNotAhead(log: Log, at: nat, entries: Log, term: int)
    requires !Ahead(log, term)
    ensures forall i | 0 <= i < Overlap(log, at, entries) :: entries[i].term <= term
    decreases |entries|
  {
    if at < |log| && entries != [] && log[at].term == entries[0].term {
      OverlapNotAhead(log, at + 1, entries[1..], term);
      forall i | 0 < i < Overlap(log, at, entries) ensures entries[i].term <= term {
        assert entries[i] == entries[1..][i - 1];
      }
    }
  }

  lemma SpliceAheadIff(log: Log, at: nat, entries: Log, term: int)
    requires at <= |log| && !Ahead(log, term)
    ensures Ahead(Splice(log, at, entries), term) <==> Ahead(entries, term)
  {
    var k, spliced := Overlap(log, at, entries), Splice(log, at, entries);
    OverlapNotAhead(log, at, entries, term);
    if Ahead(entries, term) {
      var i :| 0 <= i < |entries| && entries[i].term > term;
      assert spliced[at + i] == entries[i];
    } else {
      forall j | 0 <= j < |spliced| ensures spliced[j].term <= term {
        if k < |entries| && j >= at + k {
          assert spliced[j] == entries[j - at];
        } else {
          assert spliced[j] == log[j];
        }
      }
    }
  }

  // An accepted request leaves an entry ahead of its server's term exactly if it carries one.
  lemma EntryAheadTakenIff(n: Node, req: AppendEntriesRequest)
    requires !Ahead(n.log, n.currentTerm) && -1 <= req.prevLogIndex && HandleAppendEntries(n, req).1.success
    ensures var n' := HandleAppendEntries(n, req).0;
            n'.currentTerm == req.term && (Ahead(n'.log, n'.currentTerm) <==> Ahead(req.entries, req.term))
  {
    assert !Ahead(n.log, req.term);
    SpliceAheadIff(n.log, req.prevLogIndex + 1, req.entries, req.term);
  }
}
