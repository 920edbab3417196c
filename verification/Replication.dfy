/**
 The steps of log replication keep the invariant: client commands, AppendEntries requests,
 their replies with the commit rule, and the apply stream.
 */
module Replication {
  import opened Chat
  import opened Logs
  import opened Consensus
  import opened Protocol
  import opened Invariants
  import opened Frames
  import opened Completeness
  import opened Elections

  // ---------- client commands ----------

  ghost predicate SubmitShape(h: History, h': History, n: Node, log: Log) {
    h' == h.(leaderLog := h.leaderLog[n.currentTerm := log], acks := h.acks[At(n.id, n.currentTerm) := |log|])
  }

  lemma SubmitExtends(h: History, h': History, n: Node, e: LogEntry)
    requires LeaderOk(h, n) && e.term == n.currentTerm && SubmitShape(h, h', n, n.log + [e])
    ensures Extends(h, h', n.id) && AcksSameBefore(h, h', n.id, n.currentTerm)
  {
    assert GrowsInTerm(n.currentTerm, n.log, n.log + [e]);
  }

  lemma AppendedLogOk(h: History, h': History, n: Node, e: LogEntry)
    requires LogsGrow(h, h') && LogOk(h, n.log, n.currentTerm) && e.term == n.currentTerm >= 1
    requires n.currentTerm in h'.leaderLog && h'.leaderLog[n.currentTerm] == n.log + [e]
    ensures LogOk(h', n.log + [e], n.currentTerm)
  {
    var log := n.log + [e];
    LogFrame(h, h', n.log, n.currentTerm);
    forall i | 0 <= i < |log| ensures Created(h'.leaderLog, log, i) {
      if i < |n.log| {
        assert Created(h'.leaderLog, n.log, i);
        assert log[..i + 1] == n.log[..i + 1];
      }
    }
  }

  lemma SubmitHistOk(h: History, h': History, n: Node, e: LogEntry)
    requires HistOk(h) && PastOk(h, n) && LeaderOk(h, n) && LogOk(h, n.log, n.currentTerm)
    requires e.term == n.currentTerm && n.id in h.servers && SubmitShape(h, h', n, n.log + [e])
    requires Extends(h, h', n.id) && AcksSameBefore(h, h', n.id, n.currentTerm)
    ensures HistOk(h')
  {
    PastSettled(h, n);
    SubmitLeaderLogsOk(h, h', n, e);
    OldElectionsOk(h, h', n.id, n.currentTerm);
    forall b | b in h'.ballots ensures BallotOk(h', b) { OldBallotsOk(h, h', n.id, n.currentTerm, b); }
    SubmitAcksOk(h, h', n, e);
  }

  lemma SubmitLeaderLogsOk(h: History, h': History, n: Node, e: LogEntry)
    requires LeaderLogsOk(h) && LogsGrow(h, h') && LogOk(h, n.log, n.currentTerm)
    requires e.term == n.currentTerm && SubmitShape(h, h', n, n.log + [e]) && n.currentTerm in h.leaderLog
    ensures LeaderLogsOk(h')
  {
    forall t | t in h'.leaderLog ensures t >= 1 && LogOk(h', h'.leaderLog[t], t) {
      if t == n.currentTerm {
        AppendedLogOk(h, h', n, e);
      } else {
        LogFrame(h, h', h.leaderLog[t], t);
      }
    }
  }

  lemma SubmitAcksOk(h: History, h': History, n: Node, e: LogEntry)
    requires AcksOk(h) && LogsGrow(h, h') && n.id in h.servers && SubmitShape(h, h', n, n.log + [e])
    ensures AcksOk(h')
  {
    forall a | a in h'.acks ensures AckOk(h', a) {
      if a != At(n.id, n.currentTerm) {
        assert AckOk(h, a);
        assert GrowsInTerm(a.term, h.leaderLog[a.term], h'.leaderLog[a.term]);
      }
    }
  }

  // A longer log remembers what a shorter one did.
  lemma LongerRemembers(h: History, s: int, before: int, log: Log, log': Log, bound: int)
    requires Remembers(h, s, before, log, bound) && log <= log'
    ensures Remembers(h, s, before, log', bound)
  {
    forall term, len: nat | term < before && 0 < len <= AckLen(h, s, term) ensures Kept(h, term, len, log', bound) {
      assert Kept(h, term, len, log, bound);
    }
  }

  lemma SubmitNodeOk(h: History, h': History, s: int, n: Node, e: LogEntry)
    requires LeaderLogsOk(h) && NodeOk(h, s, n) && n.state == Leader && e.term == n.currentTerm
    requires SubmitShape(h, h', n, n.log + [e])
    requires Extends(h, h', s) && AcksSameBefore(h, h', s, n.currentTerm)
    ensures NodeOk(h', s, n.(log := n.log + [e]))
  {
    var t, log := n.currentTerm, n.log + [e];
    var n' := n.(log := log);
    AppendedLogOk(h, h', n, e);
    assert Remembers(h, s, t, n.log, t);
    RemembersFrame(h, h', s, t, n.log, t);
    LongerRemembers(h', s, t, n.log, log, t);
    RemembersOwn(h', s, t, log);
    assert log[..n.commitIndex + 1] == n.log[..n.commitIndex + 1];
    CommittedPrefixFrame(h, h', n.log[..n.commitIndex + 1], t, t);
    SubmitLeaderOk(h, h', n, e);
    assert PastOk(h', n');
  }

  lemma SubmitLeaderOk(h: History, h': History, n: Node, e: LogEntry)
    requires LeaderOk(h, n) && SubmitShape(h, h', n, n.log + [e])
    requires Extends(h, h', n.id)
    ensures LeaderOk(h', n.(log := n.log + [e]))
  {
    var n' := n.(log := n.log + [e]);
    forall p | p in n'.peers ensures PeerOk(h', n', p) {
      assert PeerOk(h, n, p);
      assert AckLen(h, p, n.currentTerm) <= AckLen(h', p, n.currentTerm);
    }
  }

  lemma SubmitOk(h: History, s: int, n: Node, command: Command)
    requires HistOk(h) && NodeOk(h, s, n)
    ensures var n' := Submit(n, command);
            var h' := if n.state == Leader then RecordLeaderLog(h, n') else h;
            StepOk(h, h', s, n, n')
  {
    if n.state == Leader {
      var e := LogEntry(command, n.currentTerm);
      var h' := RecordLeaderLog(h, n.(log := n.log + [e]));
      SubmitExtends(h, h', n, e);
      SubmitHistOk(h, h', n, e);
      SubmitNodeOk(h, h', s, n, e);
      AdvancesByAppending(n, e);
    } else {
      UnmovedOk(h, s, n);
    }
  }

  // ---------- AppendEntries requests ----------

  lemma RoundOk(h: History, s: int, n: Node)
    requires NodeOk(h, s, n) && n.state == Leader
    ensures NodeOk(h, s, BeginRound(n)) && Advances(n, BeginRound(n))
  {
    forall p | p in n.peers ensures PeerOk(h, BeginRound(n), p) { assert PeerOk(h, n, p); }
    AdvancesInPlace(n, BeginRound(n));
  }

  // A request reaches the end of the log that it is built from.
  lemma BuiltRequest(n: Node, dst: int, term: int)
    requires 0 <= Lookup(n.nextIndex, dst) <= |n.log| && -1 <= n.commitIndex < |n.log|
    ensures var req := BuildAppendRequest(n, dst, term);
            EndOf(req) == |n.log| && RequestOf(n.log, req)
  {
    var req := BuildAppendRequest(n, dst, term);
    forall i | 0 <= i < |req.entries| ensures req.entries[i] == n.log[req.prevLogIndex + 1 + i] {
    }
  }

  lemma BuiltAppendOk(h: History, s: int, n: Node, dst: int)
    requires HistOk(h) && NodeOk(h, s, n) && n.state == Leader && dst in n.peers
    ensures 0 <= Lookup(n.nextIndex, dst) <= |n.log|
    ensures MsgOk(h, AppendCall(dst, BuildAppendRequest(n, dst, n.currentTerm)))
  {
    assert PeerOk(h, n, dst);
    BuiltRequest(n, dst, n.currentTerm);
  }

  lemma MatchesPrefix(log: Log, leader: Log, end: nat)
    requires LogMatching(log, leader) && end <= |leader|
    ensures LogMatching(log, leader[..end])
  {
    var carried := leader[..end];
    forall i | 0 <= i < |log| && i < |carried| && log[i].term == carried[i].term
      ensures log[..i + 1] == carried[..i + 1]
    {
      assert log[i].term == leader[i].term;
      assert carried[..i + 1] == leader[..i + 1];
    }
  }

  lemma MatchesItsPrefix(leader: Log, end: nat)
    requires end <= |leader|
    ensures LogMatching(leader[..end], leader)
  {
    var carried := leader[..end];
    forall i | 0 <= i < |carried| && i < |leader| && carried[i].term == leader[i].term
      ensures carried[..i + 1] == leader[..i + 1]
    {
    }
  }

  lemma RequestSuffix(leader: Log, r: AppendEntriesRequest)
    requires RequestOf(leader, r)
    ensures leader[..EndOf(r)][r.prevLogIndex + 1..] == r.entries
  {
    var suffix := leader[..EndOf(r)][r.prevLogIndex + 1..];
    assert |suffix| == |r.entries|;
    forall i | 0 <= i < |suffix| ensures suffix[i] == r.entries[i] {
      assert suffix[i] == leader[r.prevLogIndex + 1 + i];
    }
  }

  // Where a request starts does not matter: accepting it merges the leader's log up to its end.
  lemma SpliceRequest(n: Node, leader: Log, r: AppendEntriesRequest)
    requires LogMatching(n.log, leader) && RequestOf(leader, r) && Accepts(n, r)
    ensures Splice(n.log, r.prevLogIndex + 1, r.entries) == Merge(n.log, leader[..EndOf(r)])
  {
    var carried, at := leader[..EndOf(r)], r.prevLogIndex + 1;
    MatchesPrefix(n.log, leader, EndOf(r));
    RequestSuffix(leader, r);
    assert at > 0 ==> carried[at - 1] == leader[at - 1];
    SpliceIsMerge(n.log, carried, at);
  }

  lemma LeaderLogMatches(h: History, log: Log, bound: int, t: int)
    requires LeaderLogsOk(h) && LogOk(h, log, bound) && t in h.leaderLog
    ensures LogMatching(log, h.leaderLog[t])
  {
    assert LogOk(h, h.leaderLog[t], t);
    CanonicalLogsMatch(h, log, h.leaderLog[t]);
  }

  // What a request carries, merged into a log that is canonical too.
  lemma TakenLog(h: History, n: Node, req: AppendEntriesRequest)
    requires LeaderLogsOk(h) && LogOk(h, n.log, n.currentTerm) && AppendReqOk(h, req) && Accepts(n, req)
    ensures TakeEntries(n, req).log == Merge(n.log, Carried(h, req))
  {
    LeaderLogMatches(h, n.log, n.currentTerm, req.term);
    SpliceRequest(n, h.leaderLog[req.term], req);
  }

  // A prefix of my log that the leader also has survives the merge.
  lemma MergeKeepsShared(mine: Log, leader: Log, end: nat, p: Log)
    requires end <= |leader| && p <= mine && p <= leader
    ensures p <= Merge(mine, leader[..end])
  {
    if !(leader[..end] <= mine) {
      PrefixesOfOne(p, leader[..end], leader);
    }
  }

  lemma MergeHasLeader(mine: Log, leader: Log)
    ensures leader <= Merge(mine, leader)
  {
  }

  lemma TakeRemembers(h: History, h': History, n: Node, req: AppendEntriesRequest, log': Log)
    requires LeaderLogsOk(h) && AppendReqOk(h, req) && req.term == n.currentTerm
    requires Remembers(h, n.id, n.currentTerm + 1, n.log, n.currentTerm)
    requires log' == Merge(n.log, Carried(h, req))
    requires h' == RecordAck(h, n.id, req.term, EndOf(req))
    ensures Remembers(h', n.id, n.currentTerm + 1, log', n.currentTerm)
  {
    var t := n.currentTerm;
    forall term, len: nat | term < t + 1 && 0 < len <= AckLen(h', n.id, term)
      ensures Kept(h', term, len, log', t)
    {
      if term == t && len <= EndOf(req) {
        assert h.leaderLog[t][..len] <= Carried(h, req) <= log';
      } else {
        assert Kept(h, term, len, n.log, t);
        TakeKeeps(h, n, req, log', term, len);
        KeptFrame(h, h', term, len, log', t);
      }
    }
  }

  // Only a leader without an acknowledged prefix can take it away.
  lemma TakeKeeps(h: History, n: Node, req: AppendEntriesRequest, log': Log, term: int, len: nat)
    requires AppendReqOk(h, req) && req.term == n.currentTerm && term <= n.currentTerm
    requires Kept(h, term, len, n.log, n.currentTerm)
    requires log' == Merge(n.log, Carried(h, req))
    ensures Kept(h, term, len, log', n.currentTerm)
  {
    var p, leader := h.leaderLog[term][..len], h.leaderLog[req.term];
    if p <= n.log {
      if p <= leader {
        MergeKeepsShared(n.log, leader, EndOf(req), p);
      } else {
        assert Lacks(h, term, len, req.term);
      }
    }
  }

  // An accepted request leaves the committed prefix alone and ends in what the leader sent.
  lemma TakeKeepsCommitted(h: History, n: Node, req: AppendEntriesRequest, p: Log)
    requires LeaderLogsOk(h) && LogOk(h, n.log, n.currentTerm)
    requires AppendReqOk(h, req) && Accepts(n, req)
    requires p <= n.log && p <= h.leaderLog[req.term]
    ensures p <= TakeEntries(n, req).log
    ensures Carried(h, req) <= TakeEntries(n, req).log
  {
    TakenLog(h, n, req);
    MergeKeepsShared(n.log, h.leaderLog[req.term], EndOf(req), p);
    MergeHasLeader(n.log, Carried(h, req));
  }

  lemma TakeCommitOk(h: History, n: Node, req: AppendEntriesRequest)
    requires CommitOk(h, n) && AppendReqOk(h, req) && req.term == n.currentTerm && Accepts(n, req)
    requires n.log[..n.commitIndex + 1] <= TakeEntries(n, req).log
    requires Carried(h, req) <= TakeEntries(n, req).log
    ensures CommitOk(h, TakeEntries(n, req)) && Advances(n, TakeEntries(n, req))
    ensures TakeEntries(n, req).commitIndex
            == if req.leaderCommit > n.commitIndex then req.leaderCommit else n.commitIndex
  {
    var log := TakeEntries(n, req).log;
    if req.leaderCommit > n.commitIndex {
      assert log[..req.leaderCommit + 1] == h.leaderLog[req.term][..req.leaderCommit + 1];
    } else {
      assert log[..n.commitIndex + 1] == n.log[..n.commitIndex + 1];
    }
  }

  lemma TakeKeepsCommit(h: History, n: Node, req: AppendEntriesRequest)
    requires HistOk(h) && LogOk(h, n.log, n.currentTerm) && CommitOk(h, n)
    requires AppendReqOk(h, req) && req.term == n.currentTerm && Accepts(n, req)
    ensures CommitOk(h, TakeEntries(n, req)) && Advances(n, TakeEntries(n, req))
    ensures TakeEntries(n, req).commitIndex
            == if req.leaderCommit > n.commitIndex then req.leaderCommit else n.commitIndex
    ensures Carried(h, req) <= TakeEntries(n, req).log
  {
    LeaderHasPrefix(h, n.log[..n.commitIndex + 1], n.currentTerm, req.term);
    TakeKeepsCommitted(h, n, req, n.log[..n.commitIndex + 1]);
    TakeCommitOk(h, n, req);
  }

  lemma RecordAckExtends(h: History, s: int, t: int, len: nat)
    ensures Extends(h, RecordAck(h, s, t, len), s)
    ensures AcksSameBefore(h, RecordAck(h, s, t, len), s, t)
  {
    if len <= AckLen(h, s, t) {
      ExtendsReflexive(h, s);
    } else {
      NewAckExtends(h, At(s, t), len);
    }
  }

  lemma NewAckExtends(h: History, a: At, len: nat)
    requires len > AckLen(h, a.server, a.term)
    ensures Extends(h, h.(acks := h.acks[a := len]), a.server)
  {
  }

  lemma RecordAckAcksOk(h: History, a: At, len: nat)
    requires AcksOk(h) && a.server in h.servers && a.term in h.leaderLog && len <= |h.leaderLog[a.term]|
    ensures AcksOk(RecordAck(h, a.server, a.term, len))
  {
    forall b | b in h.acks ensures AckOk(h, b) {
    }
  }

  lemma RecordAckHistOk(h: History, h': History, n: Node, len: nat)
    requires HistOk(h) && SettledBefore(h, n.id, n.currentTerm) && n.id in h.servers
    requires n.currentTerm in h.leaderLog && len <= |h.leaderLog[n.currentTerm]|
    requires h' == RecordAck(h, n.id, n.currentTerm, len)
    ensures HistOk(h')
  {
    RecordAckExtends(h, n.id, n.currentTerm, len);
    RecordAckAcksOk(h, At(n.id, n.currentTerm), len);
    OldLeaderLogsOk(h, h');
    OldElectionsOk(h, h', n.id, n.currentTerm);
    forall b | b in h'.ballots ensures BallotOk(h', b) { OldBallotsOk(h, h', n.id, n.currentTerm, b); }
  }

  lemma TakeNodeOk(h: History, h': History, s: int, n: Node, n': Node, req: AppendEntriesRequest)
    requires LeaderLogsOk(h) && NodeOk(h, s, n) && n.state == Follower
    requires AppendReqOk(h, req) && req.term == n.currentTerm && Accepts(n, req) && n' == TakeEntries(n, req)
    requires h' == RecordAck(h, s, req.term, EndOf(req)) && Extends(h, h', s)
    requires CommitOk(h, n')
    ensures NodeOk(h', s, n')
  {
    TakenFacts(h, h', n, n', req);
    CommittedPrefixFrame(h, h', n'.log[..n'.commitIndex + 1], n.currentTerm, n.currentTerm);
    TakePast(h, h', n, n', EndOf(req));
  }

  lemma TakenFacts(h: History, h': History, n: Node, n': Node, req: AppendEntriesRequest)
    requires LeaderLogsOk(h) && LogOk(h, n.log, n.currentTerm)
    requires Remembers(h, n.id, n.currentTerm + 1, n.log, n.currentTerm)
    requires AppendReqOk(h, req) && req.term == n.currentTerm && Accepts(n, req) && n' == TakeEntries(n, req)
    requires h' == RecordAck(h, n.id, req.term, EndOf(req)) && LogsGrow(h, h')
    ensures LogOk(h', n'.log, n.currentTerm)
    ensures Remembers(h', n.id, n.currentTerm + 1, n'.log, n.currentTerm)
  {
    TakenLog(h, n, req);
    TakeRemembers(h, h', n, req, n'.log);
    TakenLogOk(h, h', n, req, n'.log);
  }

  lemma TakenLogOk(h: History, h': History, n: Node, req: AppendEntriesRequest, log': Log)
    requires LeaderLogsOk(h) && LogOk(h, n.log, n.currentTerm) && AppendReqOk(h, req) && req.term == n.currentTerm
    requires log' == Merge(n.log, Carried(h, req)) && LogsGrow(h, h')
    ensures LogOk(h', log', n.currentTerm)
  {
    assert LogOk(h, h.leaderLog[req.term], req.term);
    PrefixOk(h, Carried(h, req), h.leaderLog[req.term], req.term);
    LogFrame(h, h', log', n.currentTerm);
  }

  lemma TakePast(h: History, h': History, n: Node, n': Node, len: nat)
    requires PastOk(h, n) && h' == RecordAck(h, n.id, n.currentTerm, len)
    requires n' == n.(log := n'.log, commitIndex := n'.commitIndex)
    ensures PastOk(h', n')
  {
  }

  lemma TakeOk(h: History, s: int, n: Node, req: AppendEntriesRequest)
    requires HistOk(h) && NodeOk(h, s, n) && n.state == Follower
    requires AppendReqOk(h, req) && req.term == n.currentTerm && Accepts(n, req)
    ensures var n' := TakeEntries(n, req);
            var h' := RecordAck(h, s, req.term, EndOf(req));
            StepOk(h, h', s, n, n')
    ensures AckLen(RecordAck(h, s, req.term, EndOf(req)), s, req.term) >= EndOf(req)
  {
    var n', h' := TakeEntries(n, req), RecordAck(h, s, req.term, EndOf(req));
    RecordAckExtends(h, s, req.term, EndOf(req));
    PastSettled(h, n);
    RecordAckHistOk(h, h', n, EndOf(req));
    TakeKeepsCommit(h, n, req);
    TakeNodeOk(h, h', s, n, n', req);
  }

  // No leader steps down for a request of its own term: there is no second leader to send one.
  lemma NeverTwoLeaders(h: History, s: int, n: Node, req: AppendEntriesRequest)
    requires NodeOk(h, s, n) && AppendReqOk(h, req) && req.leaderId != s && req.term == n.currentTerm
    ensures n.state != Leader
  {
  }

  lemma StepDownOk(h: History, s: int, n: Node, req: AppendEntriesRequest)
    requires HistOk(h) && NodeOk(h, s, n) && AppendReqOk(h, req) && req.leaderId != s
    requires req.term == n.currentTerm
    ensures var n2 := StepDown(n, req.term);
            var h2 := Close(h, n, n2);
            StepOk(h, h2, s, n, n2)
  {
    NeverTwoLeaders(h, s, n, req);
    if n.state == Candidate {
      BecomeFollowerOk(h, s, n, req.term);
    } else {
      UnmovedOk(h, s, n);
    }
  }

  // The state and the history in which the entries of a request of the current term are examined.
  lemma ReadyOk(h: History, s: int, n: Node, req: AppendEntriesRequest)
    requires HistOk(h) && NodeOk(h, s, n) && AppendReqOk(h, req) && req.leaderId != s
    requires req.term == SeeTerm(n, req.term).currentTerm
    ensures var n2 := StepDown(SeeTerm(n, req.term), req.term);
            var h2 := Close(h, n, n2);
            && StepOk(h, h2, s, n, n2)
            && n2.state == Follower && n2.currentTerm == req.term
  {
    if req.term > n.currentTerm {
      SeeTermOk(h, s, n, req.term);
    } else {
      StepDownOk(h, s, n, req);
    }
  }

  lemma AcceptedOk(h: History, s: int, n: Node, n2: Node, req: AppendEntriesRequest)
    requires HistOk(h) && NodeOk(h, s, n) && AppendReqOk(h, req) && req.leaderId != s
    requires req.term == SeeTerm(n, req.term).currentTerm
    requires n2 == StepDown(SeeTerm(n, req.term), req.term) && Accepts(n2, req)
    ensures var n' := TakeEntries(n2, req);
            var h' := HistoryOfAppend(h, n, n', req, true);
            StepOk(h, h', s, n, n') && AppendReqOk(h', req) && AckLen(h', s, req.term) >= EndOf(req)
  {
    var h2, n' := Close(h, n, n2), TakeEntries(n2, req);
    var h' := HistoryOfAppend(h, n, n', req, true);
    assert h' == RecordAck(h2, s, req.term, EndOf(req));
    ReadyOk(h, s, n, req);
    AppendReqFrame(h, h2, s, req);
    TakeOk(h2, s, n2, req);
    AppendReqFrame(h2, h', s, req);
    StepTransitive(h, h2, h', s, n, n2, n');
  }

  lemma AppendOk(h: History, s: int, n: Node, req: AppendEntriesRequest)
    requires HistOk(h) && NodeOk(h, s, n) && AppendReqOk(h, req) && req.leaderId != s
    ensures var (n', resp) := HandleAppendEntries(n, req);
            var h' := HistoryOfAppend(h, n, n', req, resp.success);
            StepOk(h, h', s, n, n') && MsgOk(h', AppendReturn(s, req, resp))
  {
    var n1 := SeeTerm(n, req.term);
    var n2 := if req.term == n1.currentTerm then StepDown(n1, req.term) else n1;
    if req.term == n1.currentTerm && Accepts(n2, req) {
      AcceptedOk(h, s, n, n2, req);
    } else {
      if req.term == n1.currentTerm {
        ReadyOk(h, s, n, req);
      } else {
        SeeTermOk(h, s, n, req.term);
      }
      AppendReqFrame(h, Close(h, n, n2), s, req);
    }
  }

  // ---------- replies and the commit rule ----------

  // AdvanceTo finds the greatest committable index above the commit index, if there is one.
  lemma {:induction false} AdvanceToIsGreatest(n: Node, top: int)
    requires top < |n.log|
    ensures var c := AdvanceTo(n, top);
            && (c == n.commitIndex || (n.commitIndex < c <= top && Committable(n, c)))
            && forall i | n.commitIndex < i <= top && Committable(n, i) :: i <= c
    decreases top - n.commitIndex
  {
    if top > n.commitIndex && !Committable(n, top) {
      AdvanceToIsGreatest(n, top - 1);
    }
  }

  // What a majority of matchIndex values vouches for is committed.
  lemma CommittableIsCommitted(h: History, s: int, n: Node, i: int)
    requires NodeOk(h, s, n) && LeaderOk(h, n) && Committable(n, i)
    ensures CommittedPrefix(h, n.log[..i + 1], n.currentTerm)
  {
    var t, acked := n.currentTerm, AckSet(h, n.currentTerm, i + 1);
    forall p | p in Matched(n, i) ensures p in acked {
      assert PeerOk(h, n, p);
    }
    assert s in acked && s !in Matched(n, i);
    SubsetSize(Matched(n, i) + {s}, acked);
    assert h.servers == n.peers + {s};
    assert CommitWitness(h, n.log[..i + 1], t, i + 1);
  }

  lemma AcknowledgeOk(h: History, s: int, n: Node, f: int, req: AppendEntriesRequest)
    requires NodeOk(h, s, n) && n.state == Leader && req.term == n.currentTerm && AppendReqOk(h, req)
    requires AckLen(h, f, req.term) >= EndOf(req)
    ensures NodeOk(h, s, Acknowledge(n, f, EndOf(req)))
  {
    var n1 := Acknowledge(n, f, EndOf(req));
    forall p | p in n1.peers ensures PeerOk(h, n1, p) {
      assert PeerOk(h, n, p);
    }
  }

  lemma AdvanceOk(h: History, s: int, n: Node)
    requires NodeOk(h, s, n) && n.state == Leader
    ensures var n' := n.(commitIndex := AdvanceCommit(n));
            NodeOk(h, s, n') && Advances(n, n')
  {
    var n' := n.(commitIndex := AdvanceCommit(n));
    AdvanceToIsGreatest(n, |n.log| - 1);
    if n'.commitIndex != n.commitIndex { CommittableIsCommitted(h, s, n, n'.commitIndex); }
    forall p | p in n'.peers ensures PeerOk(h, n', p) {
      assert PeerOk(h, n, p);
    }
  }

  lemma {:induction false} NoTermZero(log: Log, top: nat)
    requires top <= |log| && forall i | 0 <= i < |log| :: log[i].term >= 1
    ensures LastIndexOfTerm(log, top, 0) == -1
  {
    if top > 0 { NoTermZero(log, top - 1); }
  }

  // Every rejection sends the leader back to the start of its log.
  lemma RewindsToZero(n: Node, resp: AppendEntriesResponse)
    requires Sorted(n.log, n.currentTerm) && resp.conflictIndex == 0 && resp.conflictTerm == 0
    ensures Rewind(n.log, resp) == 0
  {
    NoTermZero(n.log, |n.log|);
  }

  lemma RewindOk(h: History, s: int, n: Node, f: int)
    requires NodeOk(h, s, n) && n.state == Leader
    ensures var n' := n.(nextIndex := n.nextIndex[f := 0]);
            NodeOk(h, s, n') && Advances(n, n')
  {
    var n' := n.(nextIndex := n.nextIndex[f := 0]);
    forall p | p in n'.peers ensures PeerOk(h, n', p) {
      assert PeerOk(h, n, p);
    }
  }

  lemma CountedAckOk(h: History, s: int, n: Node, f: int, req: AppendEntriesRequest)
    requires NodeOk(h, s, n) && n.state == Leader && req.term == n.currentTerm && AppendReqOk(h, req)
    requires AckLen(h, f, req.term) >= EndOf(req)
    ensures var n1 := Acknowledge(n, f, EndOf(req));
            var n' := n1.(commitIndex := AdvanceCommit(n1));
            NodeOk(h, s, n') && Advances(n, n')
  {
    AcknowledgeOk(h, s, n, f, req);
    AdvanceOk(h, s, Acknowledge(n, f, EndOf(req)));
  }

  lemma AppendReplyOk(h: History, s: int, n: Node, f: int, req: AppendEntriesRequest, resp: AppendEntriesResponse)
    requires HistOk(h) && NodeOk(h, s, n)
    requires MsgOk(h, AppendReturn(f, req, resp)) && req.leaderId == s
    requires CountsOwnTerm(n, req, resp)
    ensures var n' := HandleAppendReply(n, f, req, resp);
            var h' := Close(h, n, n');
            StepOk(h, h', s, n, n')
  {
    if resp.term > n.currentTerm {
      BecomeFollowerOk(h, s, n, resp.term);
    } else {
      UnmovedOk(h, s, n);
      if n.state == Leader && req.term == resp.term {
        if resp.success {
          CountedAckOk(h, s, n, f, req);
        } else {
          RewindsToZero(n, resp);
          RewindOk(h, s, n, f);
        }
      }
    }
  }
}
