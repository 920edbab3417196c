/**
 The steps of an election keep the invariant: timeouts, vote requests, vote replies, and the
 moment a candidate becomes leader.
 */
module Elections {
  import opened Logs
  import opened Consensus
  import opened Protocol
  import opened Invariants
  import opened Frames

  // ---------- old records under an extended history ----------

  // Server s has cast its votes and led only in terms up to `cur`.
  ghost predicate SettledBefore(h: History, s: int, cur: int) {
    && (forall b | b in h.ballots && b.voter == s :: b.term <= cur)
    && (forall t | t in h.elections && h.elections[t].leader == s :: t <= cur)
  }

  ghost predicate AcksSameBefore(h: History, h': History, s: int, cur: int) {
    forall t | t < cur :: AckLen(h', s, t) == AckLen(h, s, t)
  }

  lemma AcksSameFor(h: History, h': History, s: int, cur: int, v: int, before: int)
    requires Extends(h, h', s) && AcksSameBefore(h, h', s, cur)
    requires v == s ==> before <= cur
    ensures forall t | t < before :: AckLen(h', v, t) == AckLen(h, v, t)
  {
    forall t | t < before ensures AckLen(h', v, t) == AckLen(h, v, t) {
      if v != s { OthersAcksSame(h, h', s, v, t); }
    }
  }

  lemma OldVoterOk(h: History, h': History, s: int, cur: int, t: int, e: Election, v: int)
    requires LeaderLogsOk(h) && Extends(h, h', s) && SettledBefore(h, s, cur) && AcksSameBefore(h, h', s, cur)
    requires t in h.elections && h.elections[t] == e && v in e.voters && VoterOk(h, t, e, v)
    ensures VoterOk(h', t, e, v)
  {
    LogFrame(h, h', e.voters[v], t);
    AcksSameFor(h, h', s, cur, v, t);
    RemembersFrame(h, h', v, t, e.voters[v], t - 1);
  }

  lemma OldElectionOk(h: History, h': History, s: int, cur: int, t: int)
    requires LeaderLogsOk(h) && Extends(h, h', s) && SettledBefore(h, s, cur) && AcksSameBefore(h, h', s, cur)
    requires t in h.elections && t in h.leaderLog && ElectionOk(h, t)
    ensures t in h'.elections && t in h'.leaderLog && ElectionOk(h', t)
  {
    var e := h.elections[t];
    assert e.log <= h.leaderLog[t] <= h'.leaderLog[t];
    forall v | v in e.voters ensures VoterOk(h', t, e, v) {
      assert VoterOk(h, t, e, v);
      OldVoterOk(h, h', s, cur, t, e, v);
    }
  }

  lemma OldBallotOk(h: History, h': History, s: int, cur: int, b: Ballot)
    requires LeaderLogsOk(h) && Extends(h, h', s) && SettledBefore(h, s, cur) && AcksSameBefore(h, h', s, cur)
    requires b in h.ballots && BallotOk(h, b)
    requires b.term in h'.elections ==> h'.elections[b.term].leader != b.voter
    ensures b in h'.ballots && BallotOk(h', b)
  {
    LogFrame(h, h', h.ballots[b], b.term);
    AcksSameFor(h, h', s, cur, b.voter, b.term);
    RemembersFrame(h, h', b.voter, b.term, h.ballots[b], b.term);
  }

  lemma OldElectionsOk(h: History, h': History, s: int, cur: int)
    requires LeaderLogsOk(h) && ElectionsOk(h)
    requires Extends(h, h', s) && SettledBefore(h, s, cur) && AcksSameBefore(h, h', s, cur)
    requires h'.elections == h.elections && h'.leaderLog.Keys == h.leaderLog.Keys
    ensures ElectionsOk(h')
  {
    forall t | t in h'.elections ensures ElectionOk(h', t) { OldElectionOk(h, h', s, cur, t); }
  }

  lemma OldBallotsOk(h: History, h': History, s: int, cur: int, b: Ballot)
    requires LeaderLogsOk(h) && BallotsOk(h)
    requires Extends(h, h', s) && SettledBefore(h, s, cur) && AcksSameBefore(h, h', s, cur)
    requires b in h.ballots
    requires h'.elections == h.elections
    ensures BallotOk(h', b)
  {
    assert BallotOk(h, b);
    OldBallotOk(h, h', s, cur, b);
  }

  lemma OldAcksOk(h: History, h': History, s: int)
    requires AcksOk(h) && Extends(h, h', s) && h'.acks == h.acks
    ensures AcksOk(h')
  {
    forall a | a in h'.acks ensures AckOk(h', a) {
      assert AckOk(h, a);
      assert h.leaderLog[a.term] <= h'.leaderLog[a.term];
    }
  }

  lemma OldLeaderLogsOk(h: History, h': History)
    requires LeaderLogsOk(h) && LogsGrow(h, h') && h'.leaderLog == h.leaderLog && h'.elections == h.elections
    ensures LeaderLogsOk(h')
  {
    forall t | t in h'.leaderLog ensures t >= 1 && LogOk(h', h'.leaderLog[t], t) {
      LogFrame(h, h', h.leaderLog[t], t);
    }
  }

  // An extension without new elections, leader logs, ballots or acknowledgements.
  lemma QuietHistOk(h: History, h': History, s: int, cur: int)
    requires HistOk(h) && Extends(h, h', s) && SettledBefore(h, s, cur)
    requires h'.elections == h.elections && h'.leaderLog == h.leaderLog
    requires h'.ballots == h.ballots && h'.acks == h.acks
    ensures HistOk(h')
  {
    OldLeaderLogsOk(h, h');
    OldElectionsOk(h, h', s, cur);
    forall b | b in h'.ballots ensures BallotOk(h', b) { OldBallotsOk(h, h', s, cur, b); }
    OldAcksOk(h, h', s);
  }

  // ---------- stepping down ----------

  lemma RemembersLater(h: History, s: int, term: int, log: Log, term': int)
    requires Remembers(h, s, term + 1, log, term) && term <= term'
    requires forall a | a in h.acks && a.server == s :: a.term <= term
    ensures Remembers(h, s, term' + 1, log, term')
  {
    forall t, len: nat | t < term' + 1 && 0 < len <= AckLen(h, s, t) ensures Kept(h, t, len, log, term') {
      assert At(s, t) in h.acks;
      assert Kept(h, t, len, log, term);
      if Conflict(h, t, len, term) {
        var later :| t < later <= term && Lacks(h, t, len, later);
        assert t < later <= term' && Lacks(h, t, len, later);
      }
    }
  }

  lemma ClosedExtends(h: History, a: At)
    ensures Extends(h, h.(closed := h.closed + {a}), a.server)
  {
  }

  lemma CloseExtends(h: History, n: Node, n': Node)
    ensures Extends(h, Close(h, n, n'), n.id)
  {
    ExtendsReflexive(h, n.id);
    ClosedExtends(h, At(n.id, n.currentTerm));
  }

  // The parts of a server's invariant that do not depend on its role, after its term grows.
  lemma LaterTermOk(h: History, h': History, s: int, n: Node, n': Node)
    requires LeaderLogsOk(h) && Extends(h, h', s) && NodeOk(h, s, n)
    requires h'.leaderLog == h.leaderLog && h'.acks == h.acks
    requires n'.log == n.log && n'.commitIndex == n.commitIndex && n'.lastApplied == n.lastApplied
    requires n'.currentTerm >= n.currentTerm
    ensures LogOk(h', n'.log, n'.currentTerm)
    ensures Remembers(h', s, n'.currentTerm + 1, n'.log, n'.currentTerm)
    ensures CommitOk(h', n')
    ensures Advances(n, n')
  {
    LogFrame(h, h', n.log, n.currentTerm);
    RemembersFrame(h, h', s, n.currentTerm + 1, n.log, n.currentTerm);
    RemembersLater(h', s, n.currentTerm, n.log, n'.currentTerm);
    CommittedPrefixFrame(h, h', n.log[..n.commitIndex + 1], n.currentTerm, n'.currentTerm);
    AdvancesInPlace(n, n');
  }

  lemma PastSettled(h: History, n: Node)
    requires PastOk(h, n)
    ensures SettledBefore(h, n.id, n.currentTerm)
  {
  }

  lemma ClosedHistOk(h: History, a: At, cur: int)
    requires HistOk(h) && SettledBefore(h, a.server, cur)
    ensures HistOk(h.(closed := h.closed + {a}))
  {
    ClosedExtends(h, a);
    QuietHistOk(h, h.(closed := h.closed + {a}), a.server, cur);
  }

  lemma CloseHistOk(h: History, n: Node, n': Node)
    requires HistOk(h) && PastOk(h, n)
    ensures Extends(h, Close(h, n, n'), n.id) && HistOk(Close(h, n, n'))
  {
    CloseExtends(h, n, n');
    PastSettled(h, n);
    ClosedHistOk(h, At(n.id, n.currentTerm), n.currentTerm);
  }

  lemma BecomeFollowerPast(h: History, n: Node, term: int)
    requires PastOk(h, n)
    requires term > n.currentTerm || (term == n.currentTerm && n.state == Candidate)
    ensures PastOk(Close(h, n, BecomeFollower(n, term)), BecomeFollower(n, term))
  {
  }

  // A server may forget its vote when it moves to a later term, and also when it gives up a
  // candidacy without changing its term.
  lemma BecomeFollowerOk(h: History, s: int, n: Node, term: int)
    requires HistOk(h) && NodeOk(h, s, n)
    requires term > n.currentTerm || (term == n.currentTerm && n.state == Candidate)
    ensures var n' := BecomeFollower(n, term);
            var h' := Close(h, n, n');
            StepOk(h, h', s, n, n')
  {
    var n' := BecomeFollower(n, term);
    CloseHistOk(h, n, n');
    BecomeFollowerPast(h, n, term);
    LaterTermOk(h, Close(h, n, n'), s, n, n');
  }

  // ---------- timeouts ----------

  lemma CandidacyExtends(h: History, n: Node)
    requires At(n.id, n.currentTerm) !in h.candidacies
    ensures Extends(h, RecordCandidacy(h, n), n.id)
  {
  }

  lemma TimeoutExtends(h: History, n: Node, n': Node)
    requires n'.id == n.id && At(n'.id, n'.currentTerm) !in h.candidacies
    ensures Extends(h, RecordCandidacy(Close(h, n, n'), n'), n.id)
  {
    var h1 := Close(h, n, n');
    CloseExtends(h, n, n');
    CandidacyExtends(h1, n');
    ExtendsTransitive(h, h1, RecordCandidacy(h1, n'), n.id);
  }

  lemma TimeoutPast(h: History, n: Node)
    requires PastOk(h, n) && n.state != Leader && n.currentTerm >= 0
    ensures var n' := StartElection(n);
            var h' := RecordCandidacy(Close(h, n, n'), n');
            && At(n.id, n'.currentTerm) !in h.candidacies
            && PastOk(h', n')
            && (Sorted(n.log, n.currentTerm) ==> CandidateOk(h', n'))
  {
  }

  lemma TimeoutHistOk(h: History, n: Node)
    requires HistOk(h) && PastOk(h, n) && n.state != Leader && n.currentTerm >= 0
    ensures var n' := StartElection(n);
            var h' := RecordCandidacy(Close(h, n, n'), n');
            Extends(h, h', n.id) && HistOk(h')
  {
    var n' := StartElection(n);
    TimeoutPast(h, n);
    TimeoutExtends(h, n, n');
    CloseHistOk(h, n, n');
    PastSettled(h, n);
    CandidacyHistOk(Close(h, n, n'), n', n.currentTerm);
  }

  lemma CandidacyHistOk(h: History, n: Node, cur: int)
    requires HistOk(h) && SettledBefore(h, n.id, cur) && At(n.id, n.currentTerm) !in h.candidacies
    ensures HistOk(RecordCandidacy(h, n))
  {
    CandidacyExtends(h, n);
    QuietHistOk(h, RecordCandidacy(h, n), n.id, cur);
  }

  lemma TimeoutOk(h: History, s: int, n: Node)
    requires HistOk(h) && NodeOk(h, s, n) && n.state != Leader
    ensures var n' := StartElection(n);
            var h' := RecordCandidacy(Close(h, n, n'), n');
            StepOk(h, h', s, n, n')
  {
    var n' := StartElection(n);
    var h' := RecordCandidacy(Close(h, n, n'), n');
    TimeoutPast(h, n);
    TimeoutHistOk(h, n);
    LaterTermOk(h, h', s, n, n');
  }

  // ---------- votes ----------

  lemma GrantOk(h: History, s: int, n: Node, req: RequestVoteRequest)
    requires HistOk(h) && NodeOk(h, s, n)
    requires GrantsVote(n, req) && req.candidateId != s && VoteReqOk(h, req)
    ensures var n' := n.(votedFor := req.candidateId);
            var h' := RecordBallot(h, Ballot(s, req.term, req.candidateId), n.log);
            && StepOk(h, h', s, n, n')
            && Ballot(s, req.term, req.candidateId) in h'.ballots
  {
    var b := Ballot(s, req.term, req.candidateId);
    var n' := n.(votedFor := req.candidateId);
    assert n.state == Follower;
    if b in h.ballots {
      assert n' == n;
      ExtendsReflexive(h, s);
    } else {
      NoOtherBallot(h, n, req.candidateId);
      NewBallotPast(h, n, req.candidateId);
      NewBallotOk(h, s, n, req, b);
      BallotExtends(h, b, n.log);
      var h' := RecordBallot(h, b, n.log);
      LaterTermOk(h, h', s, n, n');
    }
  }

  lemma BallotExtends(h: History, b: Ballot, log: Log)
    ensures Extends(h, RecordBallot(h, b, log), b.voter)
  {
  }

  // A follower that may vote for a candidate has not voted for another one in this term.
  lemma NoOtherBallot(h: History, n: Node, candidate: int)
    requires (forall s | s in h.servers :: s >= 0) && (forall b | b in h.ballots :: BallotOk(h, b))
    requires PastOk(h, n) && (n.votedFor == -1 || n.votedFor == candidate)
    ensures forall b | b in h.ballots && b.voter == n.id && b.term == n.currentTerm :: b.candidate == candidate
  {
    forall b | b in h.ballots && b.voter == n.id && b.term == n.currentTerm ensures b.candidate == candidate {
      assert BallotOk(h, b);
    }
  }

  lemma FreshBallotOk(h: History, h': History, n: Node, req: RequestVoteRequest, b: Ballot)
    requires LeaderLogsOk(h) && LogOk(h, n.log, n.currentTerm)
    requires Remembers(h, n.id, n.currentTerm + 1, n.log, n.currentTerm)
    requires n.currentTerm in h.elections ==> h.elections[n.currentTerm].leader != n.id
    requires GrantsVote(n, req) && req.candidateId != n.id && VoteReqOk(h, req) && n.id in h.servers
    requires b == Ballot(n.id, req.term, req.candidateId)
    requires h' == h.(ballots := h.ballots[b := n.log])
    ensures BallotOk(h', b)
  {
    LogFrame(h, h', n.log, n.currentTerm);
    assert Remembers(h, n.id, n.currentTerm, n.log, n.currentTerm);
    RemembersFrame(h, h', n.id, n.currentTerm, n.log, n.currentTerm);
  }

  lemma BallotsWithNew(h: History, h': History, s: int, cur: int, b: Ballot)
    requires LeaderLogsOk(h) && BallotsOk(h)
    requires Extends(h, h', s) && SettledBefore(h, s, cur) && AcksSameBefore(h, h', s, cur)
    requires h'.elections == h.elections && h'.ballots.Keys == h.ballots.Keys + {b} && BallotOk(h', b)
    ensures BallotsOk(h')
  {
    forall c | c in h'.ballots ensures BallotOk(h', c) {
      if c != b { OldBallotsOk(h, h', s, cur, c); }
    }
  }

  lemma StillOneBallot(h: History, h': History, b: Ballot)
    requires OneBallot(h) && h'.ballots.Keys == h.ballots.Keys + {b}
    requires forall c | c in h.ballots && c.voter == b.voter && c.term == b.term :: c == b
    ensures OneBallot(h')
  {
  }

  lemma NewBallotPast(h: History, n: Node, candidate: int)
    requires PastOk(h, n) && n.state == Follower
    requires forall c | c in h.ballots && c.voter == n.id && c.term == n.currentTerm :: c.candidate == candidate
    ensures PastOk(RecordBallot(h, Ballot(n.id, n.currentTerm, candidate), n.log), n.(votedFor := candidate))
  {
  }

  lemma NewBallotOk(h: History, s: int, n: Node, req: RequestVoteRequest, b: Ballot)
    requires HistOk(h) && NodeOk(h, s, n) && n.state == Follower
    requires GrantsVote(n, req) && req.candidateId != s && VoteReqOk(h, req)
    requires b == Ballot(s, req.term, req.candidateId) && b !in h.ballots
    requires forall c | c in h.ballots && c.voter == s && c.term == n.currentTerm :: c == b
    ensures HistOk(RecordBallot(h, b, n.log))
  {
    var h' := RecordBallot(h, b, n.log);
    BallotExtends(h, b, n.log);
    FreshBallotOk(h, h', n, req, b);
    BallotsWithNew(h, h', s, n.currentTerm, b);
    StillOneBallot(h, h', b);
    OldLeaderLogsOk(h, h');
    OldElectionsOk(h, h', s, n.currentTerm);
    OldAcksOk(h, h', s);
  }

  // ---------- winning ----------

  // Two winners of one term would share a voter; whoever it is, it did not vote for both.
  lemma FreshTerm(h: History, s: int, n: Node)
    requires HistOk(h) && NodeOk(h, s, n) && n.state == Candidate
    requires WinsRace(n, |n.races| - 1)
    ensures n.currentTerm !in h.elections
    ensures Majority(PresentVoters(n), h.servers)
  {
    var t := n.currentTerm;
    VotersAreServers(h, s, n);
    if t in h.elections {
      var e := h.elections[t];
      assert ElectionOk(h, t);
      var v := QuorumsMeet(PresentVoters(n), e.voters.Keys, h.servers);
      assert VoterOk(h, t, e, v);
      NoDoubleVote(h, s, n, e, v);
    }
  }

  lemma VotersAreServers(h: History, s: int, n: Node)
    requires BallotsOk(h) && NodeOk(h, s, n) && n.state == Candidate
    requires WinsRace(n, |n.races| - 1)
    ensures Majority(PresentVoters(n), h.servers)
  {
    forall v | v in PresentVoters(n) ensures v in h.servers {
      if v != s { assert BallotOk(h, Ballot(v, n.currentTerm, s)); }
    }
    assert h.servers == n.peers + {s};
  }

  lemma NoDoubleVote(h: History, s: int, n: Node, e: Election, v: int)
    requires BallotsOk(h) && OneBallot(h) && NodeOk(h, s, n) && n.state == Candidate
    requires n.currentTerm in h.elections && h.elections[n.currentTerm] == e
    requires v in e.voters && (v != e.leader ==> Ballot(v, n.currentTerm, e.leader) in h.ballots)
    ensures v !in PresentVoters(n)
  {
    // A server that voted for another one is not a candidate of that term, the leader of a term
    // has not voted for anyone else in it, and any other server votes at most once.
    var mine, theirs := Ballot(v, n.currentTerm, s), Ballot(v, n.currentTerm, e.leader);
    assert e.leader != s;
    assert forall b | b in h.ballots :: BallotOk(h, b);
    assert v != e.leader ==> mine != theirs && theirs in h.ballots;
  }

  // The history of a win, field by field.
  ghost predicate WinShape(h: History, h': History, n: Node) {
    var t, me := n.currentTerm, At(n.id, n.currentTerm);
    && h'.servers == h.servers && h'.ballots == h.ballots && h'.candidacies == h.candidacies
    && h'.closed == h.closed + {me}
    && h'.leaderLog == h.leaderLog[t := n.log]
    && h'.acks == h.acks[me := |n.log|]
    && t in h'.elections && h'.elections == h.elections[t := h'.elections[t]]
    && var e := h'.elections[t];
    && e.leader == n.id && e.log == n.log && e.voters.Keys == PresentVoters(n)
    && forall v | v in e.voters :: e.voters[v] == VoterLog(h, n, v)
  }

  lemma WinHasShape(h: History, n: Node)
    requires n.state == Candidate
    ensures WinShape(h, HistoryOfWin(h, n), n)
  {
    var h1 := h.(closed := h.closed + {At(n.id, n.currentTerm)});
    forall v ensures VoterLog(h1, n, v) == VoterLog(h, n, v) {
    }
  }

  lemma WinExtends(h: History, h': History, n: Node)
    requires WinShape(h, h', n) && n.currentTerm !in h.elections && n.currentTerm !in h.leaderLog && AcksOk(h)
    ensures Extends(h, h', n.id) && AcksSameBefore(h, h', n.id, n.currentTerm)
  {
    var me := At(n.id, n.currentTerm);
    assert me in h.acks ==> AckOk(h, me);
  }

  // Nobody leads term `t` yet, so no conflict can stem from it.
  lemma RemembersBelow(h: History, v: int, t: int, log: Log)
    requires t !in h.leaderLog && Remembers(h, v, t, log, t)
    ensures Remembers(h, v, t, log, t - 1)
  {
    var below := t - 1;
    forall term, len: nat | term < t && 0 < len <= AckLen(h, v, term) ensures Kept(h, term, len, log, below) {
      assert Kept(h, term, len, log, t);
      if Conflict(h, term, len, t) {
        var later :| term < later <= t && Lacks(h, term, len, later);
        assert later <= below;
      }
    }
  }

  lemma WinnersVoterOk(h: History, h': History, n: Node, t: int, e: Election, v: int)
    requires LeaderLogsOk(h) && BallotsOk(h) && t !in h.leaderLog && t == n.currentTerm
    requires CandidateOk(h, n) && LogOk(h, n.log, t) && Remembers(h, n.id, t + 1, n.log, t)
    requires Extends(h, h', n.id) && AcksSameBefore(h, h', n.id, t)
    requires e.leader == n.id && e.log == n.log && v in e.voters
    requires v in PresentVoters(n) && e.voters[v] == VoterLog(h, n, v)
    ensures VoterOk(h', t, e, v)
  {
    var log := e.voters[v];
    if v != n.id {
      var b := Ballot(v, t, n.id);
      assert BallotOk(h, b) && log == h.ballots[b];
    }
    assert Remembers(h, v, t, log, t);
    RemembersBelow(h, v, t, log);
    LogFrame(h, h', log, t);
    AcksSameFor(h, h', n.id, t, v, t);
    RemembersFrame(h, h', v, t, log, t - 1);
  }

  lemma NewElectionOk(h: History, h': History, n: Node)
    requires LeaderLogsOk(h) && BallotsOk(h) && n.currentTerm !in h.leaderLog && n.id in h.servers
    requires CandidateOk(h, n) && LogOk(h, n.log, n.currentTerm)
    requires Remembers(h, n.id, n.currentTerm + 1, n.log, n.currentTerm)
    requires Majority(PresentVoters(n), h.servers)
    requires WinShape(h, h', n) && Extends(h, h', n.id) && AcksSameBefore(h, h', n.id, n.currentTerm)
    ensures ElectionOk(h', n.currentTerm)
  {
    var t := n.currentTerm;
    var e := h'.elections[t];
    forall v | v in e.voters ensures VoterOk(h', t, e, v) {
      WinnersVoterOk(h, h', n, t, e, v);
    }
  }

  lemma WinHistOk(h: History, h': History, n: Node)
    requires HistOk(h) && PastOk(h, n) && n.currentTerm !in h.elections && n.id in h.servers
    requires CandidateOk(h, n) && n.state == Candidate && LogOk(h, n.log, n.currentTerm)
    requires Remembers(h, n.id, n.currentTerm + 1, n.log, n.currentTerm)
    requires Majority(PresentVoters(n), h.servers)
    requires WinShape(h, h', n)
    ensures HistOk(h')
  {
    WinExtends(h, h', n);
    NewElectionOk(h, h', n);
    WinLeaderLogsOk(h, h', n);
    WinRestOk(h, h', n);
  }

  lemma WinLeaderLogsOk(h: History, h': History, n: Node)
    requires LeaderLogsOk(h) && LogsGrow(h, h') && n.currentTerm >= 1 && LogOk(h, n.log, n.currentTerm)
    requires h'.leaderLog == h.leaderLog[n.currentTerm := n.log]
    requires h'.elections.Keys == h'.leaderLog.Keys && n.currentTerm !in h.leaderLog
    ensures LeaderLogsOk(h')
  {
    forall t | t in h'.leaderLog ensures t >= 1 && LogOk(h', h'.leaderLog[t], t) {
      LogFrame(h, h', h'.leaderLog[t], t);
    }
  }

  lemma WinRestOk(h: History, h': History, n: Node)
    requires LeaderLogsOk(h) && ElectionsOk(h) && BallotsOk(h) && AcksOk(h) && PastOk(h, n) && n.state == Candidate
    requires WinShape(h, h', n) && Extends(h, h', n.id) && AcksSameBefore(h, h', n.id, n.currentTerm)
    requires ElectionOk(h', n.currentTerm) && n.id in h.servers
    ensures ElectionsOk(h') && BallotsOk(h') && AcksOk(h')
  {
    PastSettled(h, n);
    forall u | u in h'.elections ensures ElectionOk(h', u) {
      if u != n.currentTerm { OldElectionOk(h, h', n.id, n.currentTerm, u); }
    }
    WinBallotsOk(h, h', n);
    WinAcksOk(h, h', n);
  }

  lemma WinBallotsOk(h: History, h': History, n: Node)
    requires LeaderLogsOk(h) && BallotsOk(h) && PastOk(h, n) && n.state == Candidate
    requires SettledBefore(h, n.id, n.currentTerm)
    requires WinShape(h, h', n) && Extends(h, h', n.id) && AcksSameBefore(h, h', n.id, n.currentTerm)
    ensures BallotsOk(h')
  {
    forall b | b in h'.ballots ensures BallotOk(h', b) {
      assert BallotOk(h, b);
      OldBallotOk(h, h', n.id, n.currentTerm, b);
    }
  }

  lemma WinAcksOk(h: History, h': History, n: Node)
    requires AcksOk(h) && WinShape(h, h', n) && LogsGrow(h, h') && n.id in h.servers
    ensures AcksOk(h')
  {
    forall a | a in h'.acks ensures AckOk(h', a) {
      if a != At(n.id, n.currentTerm) {
        assert AckOk(h, a);
        assert GrowsInTerm(a.term, h.leaderLog[a.term], h'.leaderLog[a.term]);
      }
    }
  }

  lemma WinPast(h: History, h': History, n: Node)
    requires PastOk(h, n) && n.state == Candidate && WinShape(h, h', n)
    ensures PastOk(h', StartLeader(n))
  {
  }

  lemma RemembersOwn(h: History, s: int, t: int, log: Log)
    requires t in h.leaderLog && h.leaderLog[t] == log && AckLen(h, s, t) <= |log|
    requires Remembers(h, s, t, log, t)
    ensures Remembers(h, s, t + 1, log, t)
  {
  }

  lemma WinLogOk(h: History, h': History, s: int, n: Node)
    requires LeaderLogsOk(h) && NodeOk(h, s, n) && WinShape(h, h', n)
    requires Extends(h, h', s) && AcksSameBefore(h, h', s, n.currentTerm)
    ensures LogOk(h', n.log, n.currentTerm)
    ensures Remembers(h', s, n.currentTerm + 1, n.log, n.currentTerm)
    ensures CommittedPrefix(h', n.log[..n.commitIndex + 1], n.currentTerm)
  {
    var t := n.currentTerm;
    LogFrame(h, h', n.log, t);
    assert Remembers(h, s, t, n.log, t);
    RemembersFrame(h, h', s, t, n.log, t);
    RemembersOwn(h', s, t, n.log);
    CommittedPrefixFrame(h, h', n.log[..n.commitIndex + 1], t, t);
  }

  lemma WinNodeOk(h: History, h': History, s: int, n: Node)
    requires LeaderLogsOk(h) && NodeOk(h, s, n) && n.state == Candidate && WinShape(h, h', n)
    requires Extends(h, h', s) && AcksSameBefore(h, h', s, n.currentTerm)
    ensures NodeOk(h', s, StartLeader(n))
  {
    WinPast(h, h', n);
    WinLogOk(h, h', s, n);
  }

  lemma WinOk(h: History, s: int, n: Node)
    requires HistOk(h) && NodeOk(h, s, n) && n.state == Candidate
    requires WinsRace(n, |n.races| - 1)
    ensures var n' := StartLeader(n);
            var h' := HistoryOfWin(h, n);
            StepOk(h, h', s, n, n')
  {
    var h' := HistoryOfWin(h, n);
    WinHasShape(h, n);
    FreshTerm(h, s, n);
    WinExtends(h, h', n);
    WinHistOk(h, h', n);
    WinNodeOk(h, h', s, n);
    AdvancesInPlace(n, StartLeader(n));
  }

  // ---------- vote replies and starts of leadership ----------

  lemma UnmovedOk(h: History, s: int, n: Node)
    requires HistOk(h) && NodeOk(h, s, n)
    ensures Close(h, n, n) == h && StepOk(h, h, s, n, n)
  {
    ExtendsReflexive(h, s);
    AdvancesInPlace(n, n);
  }

  lemma RestartLeaderOk(h: History, s: int, n: Node)
    requires NodeOk(h, s, n) && n.state == Leader
    ensures NodeOk(h, s, StartLeader(n)) && Advances(n, StartLeader(n))
  {
    var n' := StartLeader(n);
    forall p | p in n'.peers ensures PeerOk(h, n', p) {
    }
    AdvancesInPlace(n, n');
  }

  // Fewer starts are due, and nothing else changed.
  lemma FewerStartsOk(h: History, s: int, n: Node, n': Node)
    requires NodeOk(h, s, n) && n.state == Leader
    requires n' == n.(starting := n'.starting) && n'.starting <= n.starting
    ensures NodeOk(h, s, n')
  {
    forall p | p in n'.peers ensures PeerOk(h, n', p) { assert PeerOk(h, n, p); }
  }

  lemma ThenFewerStartsOk(h: History, h': History, s: int, n: Node, n1: Node, n': Node)
    requires StepOk(h, h', s, n, n1) && n1.state == Leader
    requires n' == n1.(starting := n'.starting) && n'.starting <= n1.starting
    ensures StepOk(h, h', s, n, n')
  {
    FewerStartsOk(h', s, n1, n');
  }

  lemma WonStartOk(h: History, s: int, n: Node, race: nat)
    requires HistOk(h) && NodeOk(h, s, n) && n.state == Candidate && MayStart(n)
    ensures StepOk(h, HistoryOfWin(h, n), s, n, RunStart(n, race))
  {
    WinOk(h, s, n);
    ThenFewerStartsOk(h, HistoryOfWin(h, n), s, n, StartLeader(n), RunStart(n, race));
  }

  lemma RepeatedStartOk(h: History, s: int, n: Node, race: nat)
    requires HistOk(h) && NodeOk(h, s, n) && n.state == Leader
    ensures NodeOk(h, s, RunStart(n, race)) && Advances(n, RunStart(n, race))
  {
    RestartLeaderOk(h, s, n);
    FewerStartsOk(h, s, StartLeader(n), RunStart(n, race));
  }

  lemma StartOk(h: History, s: int, n: Node, race: nat)
    requires HistOk(h) && NodeOk(h, s, n) && MayStart(n)
    ensures var n' := RunStart(n, race);
            StepOk(h, HistoryOfStart(h, n), s, n, n')
  {
    if n.state == Candidate {
      WonStartOk(h, s, n, race);
    } else {
      RepeatedStartOk(h, s, n, race);
      ExtendsReflexive(h, s);
    }
  }

  lemma CountAndSpawnOk(h: History, s: int, n: Node, race: nat, voter: int)
    requires NodeOk(h, s, n) && n.state == Candidate && race < |n.races|
    requires Ballot(voter, n.races[race].term, s) in h.ballots
    ensures NodeOk(h, s, CountAndSpawn(n, race, voter)) && Advances(n, CountAndSpawn(n, race, voter))
  {
    var n' := CountAndSpawn(n, race, voter);
    CountedCandidateOk(h, n, race, voter);
    assert PastOk(h, n');
    AdvancesInPlace(n, n');
  }

  lemma CountedCandidateOk(h: History, n: Node, race: nat, voter: int)
    requires CandidateOk(h, n) && race < |n.races|
    requires Ballot(voter, n.races[race].term, n.id) in h.ballots
    ensures CandidateOk(h, CountAndSpawn(n, race, voter))
  {
    var last := |n.races| - 1;
    SubsetSize(n.races[last].voters, n.races[last].voters + {voter});
  }

  lemma VoteReplyOk(h: History, s: int, n: Node, voter: int, race: nat,
                    req: RequestVoteRequest, resp: RequestVoteResponse)
    requires HistOk(h) && NodeOk(h, s, n) && race < |n.races| && n.races[race].term == req.term
    requires MsgOk(h, VoteReturn(voter, race, req, resp)) && req.candidateId == s
    requires KeepsItsTerm(n, race, resp)
    ensures var n' := HandleVoteReply(n, voter, race, resp);
            StepOk(h, Close(h, n, n'), s, n, n')
  {
    if n.state == Candidate && resp.term > req.term {
      BecomeFollowerOk(h, s, n, resp.term);
    } else {
      UnmovedOk(h, s, n);
      if n.state == Candidate && resp.term == req.term && resp.voteGranted {
        CountAndSpawnOk(h, s, n, race, voter);
      } else if n.state == Leader {
        RestartLeaderOk(h, s, n);
      }
    }
  }

  // ---------- vote requests ----------

  lemma SeeTermOk(h: History, s: int, n: Node, term: int)
    requires HistOk(h) && NodeOk(h, s, n)
    ensures var n1 := SeeTerm(n, term);
            var h1 := Close(h, n, n1);
            StepOk(h, h1, s, n, n1)
  {
    if term > n.currentTerm {
      BecomeFollowerOk(h, s, n, term);
    } else {
      UnmovedOk(h, s, n);
    }
  }

  lemma VoteReqFrame(h: History, h': History, s: int, r: RequestVoteRequest)
    requires Extends(h, h', s) && VoteReqOk(h, r)
    ensures VoteReqOk(h', r)
  {
  }

  lemma GrantedOk(h: History, s: int, n: Node, req: RequestVoteRequest)
    requires HistOk(h) && NodeOk(h, s, n) && VoteReqOk(h, req) && req.candidateId != s
    requires GrantsVote(SeeTerm(n, req.term), req)
    ensures var n' := SeeTerm(n, req.term).(votedFor := req.candidateId);
            var h' := HistoryOfVote(h, n, n', req, true);
            StepOk(h, h', s, n, n') && Ballot(s, req.term, req.candidateId) in h'.ballots
  {
    var n1 := SeeTerm(n, req.term);
    var n' := n1.(votedFor := req.candidateId);
    var h1, h' := Close(h, n, n1), HistoryOfVote(h, n, n', req, true);
    assert h' == RecordBallot(h1, Ballot(s, req.term, req.candidateId), n1.log);
    SeeTermOk(h, s, n, req.term);
    VoteReqFrame(h, h1, s, req);
    GrantOk(h1, s, n1, req);
    StepTransitive(h, h1, h', s, n, n1, n');
  }

  lemma VoteRequestOk(h: History, s: int, n: Node, race: nat, req: RequestVoteRequest)
    requires HistOk(h) && NodeOk(h, s, n) && VoteReqOk(h, req) && req.candidateId != s
    ensures var (n', resp) := HandleRequestVote(n, req);
            var h' := HistoryOfVote(h, n, n', req, resp.voteGranted);
            StepOk(h, h', s, n, n') && MsgOk(h', VoteReturn(s, race, req, resp))
  {
    if GrantsVote(SeeTerm(n, req.term), req) {
      GrantedOk(h, s, n, req);
    } else {
      SeeTermOk(h, s, n, req.term);
    }
  }

  // A request is built from the log of the moment. Once its candidacy is over it may no longer
  // describe the log that the candidate ran with.
  lemma BuiltVoteRequestOk(h: History, s: int, n: Node, dst: int, race: nat)
    requires NodeOk(h, s, n) && dst in n.peers && race < |n.races|
    ensures MsgOk(h, VoteCall(dst, race, BuildVoteRequest(n, n.races[race].term)))
  {
    assert At(s, n.races[race].term) in h.candidacies;
  }
}
