/**
 What holds in every reachable state. Everything that relates two servers, or a server and a
 message, is phrased through the history, so that a step of one server leaves the other
 servers' and the messages' invariants alone as long as the history only extends.
 */
module Invariants {
  import opened Logs
  import opened Consensus
  import opened Protocol

  // ---------- logs against the leaders' logs ----------

  // The entry at index i was created by the leader of its term, after everything that precedes it.
  ghost predicate Created(leaderLog: map<int, Log>, log: Log, i: int)
    requires 0 <= i < |log|
  {
    log[i].term in leaderLog && log[..i + 1] <= leaderLog[log[i].term]
  }

  ghost predicate Canonical(leaderLog: map<int, Log>, log: Log) {
    forall i | 0 <= i < |log| :: Created(leaderLog, log, i)
  }

  ghost predicate LogOk(h: History, log: Log, bound: int) {
    Sorted(log, bound) && Canonical(h.leaderLog, log)
  }

  // ---------- what acknowledgements are worth ----------

  ghost predicate Lacks(h: History, term: int, len: nat, later: int) {
    && later in h.leaderLog
    && term in h.leaderLog && len <= |h.leaderLog[term]|
    && !(h.leaderLog[term][..len] <= h.leaderLog[later])
  }

  // Some leader of a later term, up to `bound`, does not have the first `len` entries of the
  // leader of `term`.
  ghost predicate Conflict(h: History, term: int, len: nat, bound: int) {
    exists later :: term < later <= bound && Lacks(h, term, len, later)
  }

  ghost predicate Kept(h: History, term: int, len: nat, log: Log, bound: int) {
    && term in h.leaderLog && len <= |h.leaderLog[term]|
    && (h.leaderLog[term][..len] <= log || Conflict(h, term, len, bound))
  }

  // `log` has everything that the server acknowledged in terms before `before`, except what a
  // conflicting later leader can have replaced.
  ghost predicate Remembers(h: History, server: int, before: int, log: Log, bound: int) {
    forall term, len: nat | term < before && 0 < len <= AckLen(h, server, term) :: Kept(h, term, len, log, bound)
  }

  // ---------- commitment ----------

  function AckSet(h: History, term: int, len: nat): set<int> {
    set s | s in h.servers && AckLen(h, s, term) >= len
  }

  // A majority acknowledged the first `len` entries of the leader of `term`, the last of which
  // belongs to that term.
  ghost predicate Committed(h: History, term: int, len: nat) {
    && term in h.leaderLog && 0 < len <= |h.leaderLog[term]|
    && h.leaderLog[term][len - 1].term == term
    && Majority(AckSet(h, term, len), h.servers)
  }

  ghost predicate CommitWitness(h: History, prefix: Log, term: int, len: nat) {
    Committed(h, term, len) && prefix <= h.leaderLog[term][..len]
  }

  ghost predicate CommittedPrefix(h: History, prefix: Log, bound: int) {
    prefix == [] || exists term, len: nat :: term <= bound && CommitWitness(h, prefix, term, len)
  }

  // ---------- the history ----------

  ghost predicate LeaderLogsOk(h: History) {
    && h.elections.Keys == h.leaderLog.Keys
    && forall t | t in h.leaderLog :: t >= 1 && LogOk(h, h.leaderLog[t], t)
  }

  ghost predicate VoterOk(h: History, t: int, e: Election, v: int)
    requires v in e.voters
  {
    && LogOk(h, e.voters[v], t)
    && UpToDate(LastLogIndex(e.log), LastLogTerm(e.log), e.voters[v])
    && Remembers(h, v, t, e.voters[v], t - 1)
    && (v != e.leader ==> Ballot(v, t, e.leader) in h.ballots)
  }

  ghost predicate ElectionOk(h: History, t: int)
    requires t in h.elections && t in h.leaderLog
  {
    var e := h.elections[t];
    && e.leader in h.servers
    && At(e.leader, t) in h.closed
    && e.log <= h.leaderLog[t]
    && Sorted(e.log, t - 1)
    && Majority(e.voters.Keys, h.servers)
    && forall v | v in e.voters :: VoterOk(h, t, e, v)
  }

  ghost predicate BallotOk(h: History, b: Ballot)
    requires b in h.ballots
  {
    && b.voter in h.servers && b.candidate in h.servers && b.voter != b.candidate
    && At(b.candidate, b.term) in h.candidacies
    && LogOk(h, h.ballots[b], b.term)
    && (var c := h.candidacies[At(b.candidate, b.term)];
        At(b.candidate, b.term) in h.closed || UpToDate(LastLogIndex(c), LastLogTerm(c), h.ballots[b]))
    && Remembers(h, b.voter, b.term, h.ballots[b], b.term)
    && (b.term in h.elections ==> h.elections[b.term].leader != b.voter)
  }

  // A server grants at most one other server its vote in a term.
  ghost predicate OneBallot(h: History) {
    forall b, c | b in h.ballots && c in h.ballots && b.voter == c.voter && b.term == c.term :: b == c
  }

  ghost predicate AckOk(h: History, a: At)
    requires a in h.acks
  {
    a.server in h.servers && a.term in h.leaderLog && h.acks[a] <= |h.leaderLog[a.term]|
  }

  ghost predicate ElectionsOk(h: History) {
    h.elections.Keys == h.leaderLog.Keys && forall t | t in h.elections :: ElectionOk(h, t)
  }

  ghost predicate BallotsOk(h: History) {
    forall b | b in h.ballots :: BallotOk(h, b)
  }

  ghost predicate AcksOk(h: History) {
    forall a | a in h.acks :: AckOk(h, a)
  }

  ghost predicate HistOk(h: History) {
    && (forall s | s in h.servers :: s >= 0)
    && LeaderLogsOk(h)
    && ElectionsOk(h)
    && BallotsOk(h)
    && OneBallot(h)
    && AcksOk(h)
  }

  // ---------- a server ----------

  ghost predicate CandidateOk(h: History, n: Node) {
    var me := At(n.id, n.currentTerm);
    && n.votedFor == n.id && n.currentTerm >= 1
    && me in h.candidacies && h.candidacies[me] == n.log && me !in h.closed
    && Sorted(n.log, n.currentTerm - 1)
    && |n.races| > 0 && n.races[|n.races| - 1].term == n.currentTerm
    && n.id in PresentVoters(n)
    && (forall v | v in PresentVoters(n) && v != n.id :: Ballot(v, n.currentTerm, n.id) in h.ballots)
    && (|n.races| - 1 in n.starting ==> WinsRace(n, |n.races| - 1))
  }

  ghost predicate PeerOk(h: History, n: Node, p: int) {
    && 0 <= Lookup(n.nextIndex, p) <= |n.log|
    && -1 <= Lookup(n.matchIndex, p) < |n.log|
    && Lookup(n.matchIndex, p) + 1 <= AckLen(h, p, n.currentTerm)
  }

  ghost predicate LeaderOk(h: History, n: Node) {
    && n.votedFor == n.id
    && n.currentTerm in h.elections && h.elections[n.currentTerm].leader == n.id
    && n.currentTerm in h.leaderLog && h.leaderLog[n.currentTerm] == n.log
    && AckLen(h, n.id, n.currentTerm) == |n.log|
    && forall p | p in n.peers :: PeerOk(h, n, p)
  }

  // How the server's state bounds what the history says about it.
  ghost predicate PastOk(h: History, n: Node) {
    && (forall b | b in h.ballots && b.voter == n.id ::
          b.term <= n.currentTerm && (b.term == n.currentTerm ==> n.state == Follower && n.votedFor == b.candidate))
    && (forall a | a in h.candidacies && a.server == n.id ::
          a.term <= n.currentTerm && (a in h.closed || (n.state == Candidate && a.term == n.currentTerm)))
    && (forall a | a in h.closed && a.server == n.id :: a.term <= n.currentTerm)
    && (forall t | t in h.elections && h.elections[t].leader == n.id ::
          t <= n.currentTerm && (t == n.currentTerm ==> n.state == Leader))
    && (forall a | a in h.acks && a.server == n.id :: a.term <= n.currentTerm)
    && (forall e | 0 <= e < |n.races| :: At(n.id, n.races[e].term) in h.candidacies)
    && (forall e | e in n.starting :: e < |n.races|)
  }

  ghost predicate CommitOk(h: History, n: Node) {
    && -1 <= n.lastApplied <= n.commitIndex < |n.log|
    && CommittedPrefix(h, n.log[..n.commitIndex + 1], n.currentTerm)
  }

  ghost predicate NodeOk(h: History, s: int, n: Node) {
    && n.id == s && s in h.servers && n.peers == h.servers - {s}
    && n.currentTerm >= 0
    && LogOk(h, n.log, n.currentTerm)
    && PastOk(h, n)
    && Remembers(h, s, n.currentTerm + 1, n.log, n.currentTerm)
    && CommitOk(h, n)
    && (n.state == Candidate ==> CandidateOk(h, n))
    && (n.state == Leader ==> LeaderOk(h, n))
  }

  // ---------- a message ----------

  ghost predicate VoteReqOk(h: History, r: RequestVoteRequest) {
    var c := At(r.candidateId, r.term);
    && r.candidateId in h.servers
    && c in h.candidacies
    && (c in h.closed ||
        (r.lastLogIndex == LastLogIndex(h.candidacies[c]) && r.lastLogTerm == LastLogTerm(h.candidacies[c])))
  }

  // The part of the leader's log that a request stands for.
  function Carried(h: History, r: AppendEntriesRequest): Log
    requires r.term in h.leaderLog && 0 <= EndOf(r) <= |h.leaderLog[r.term]|
  {
    h.leaderLog[r.term][..EndOf(r)]
  }

  // A request that a leader with this log may have built at some moment.
  ghost predicate RequestOf(leader: Log, r: AppendEntriesRequest) {
    && -1 <= r.prevLogIndex
    && EndOf(r) <= |leader|
    && (forall i | 0 <= i < |r.entries| :: r.entries[i] == leader[r.prevLogIndex + 1 + i])
    && (r.prevLogIndex >= 0 ==> r.prevLogTerm == leader[r.prevLogIndex].term)
    && -1 <= r.leaderCommit < EndOf(r)
  }

  ghost predicate AppendReqOk(h: History, r: AppendEntriesRequest) {
    && r.term in h.elections && h.elections[r.term].leader == r.leaderId
    && r.term in h.leaderLog && RequestOf(h.leaderLog[r.term], r)
    && CommittedPrefix(h, h.leaderLog[r.term][..r.leaderCommit + 1], r.term)
  }

  ghost predicate MsgOk(h: History, m: Msg) {
    match m
    case VoteCall(dst, _, r) => dst != r.candidateId && VoteReqOk(h, r)
    case VoteReturn(v, _, r, resp) =>
      && v in h.servers && v != r.candidateId
      && (resp.voteGranted ==> resp.term == r.term && Ballot(v, r.term, r.candidateId) in h.ballots)
    case AppendCall(dst, r) => dst != r.leaderId && AppendReqOk(h, r)
    case AppendReturn(f, r, resp) =>
      && f in h.servers && f != r.leaderId && AppendReqOk(h, r)
      && resp.conflictIndex == 0 && resp.conflictTerm == 0
      && (resp.success ==> resp.term == r.term && AckLen(h, f, r.term) >= EndOf(r))
  }

  // ---------- what a message about votes says of its sender ----------

  // The candidate that a message names has the race that the message belongs to.
  predicate Tagged(nodes: map<int, Node>, race: nat, r: RequestVoteRequest) {
    && r.candidateId in nodes && race < |nodes[r.candidateId].races|
    && nodes[r.candidateId].races[race].term == r.term
  }

  predicate TagOk(nodes: map<int, Node>, m: Msg) {
    match m
    case VoteCall(_, race, r) => Tagged(nodes, race, r)
    case VoteReturn(_, race, r, _) => Tagged(nodes, race, r)
    case _ => true
  }

  ghost predicate TagsOk(nodes: map<int, Node>, net: set<Msg>) {
    forall m | m in net :: TagOk(nodes, m)
  }

  // ---------- the apply stream ----------

  ghost predicate StreamOk(n: Node, a: App) {
    && |a.emitted| == n.lastApplied + 1 <= |n.log|
    && forall i | 0 <= i < |a.emitted| :: a.emitted[i].command == n.log[i].command && a.emitted[i].index == i
  }

  ghost predicate NodesOk(h: History, nodes: map<int, Node>) {
    forall s | s in nodes :: NodeOk(h, s, nodes[s])
  }

  ghost predicate NetOk(h: History, net: set<Msg>) {
    forall m | m in net :: MsgOk(h, m)
  }

  ghost predicate StreamsOk(nodes: map<int, Node>, apps: map<int, App>) {
    nodes.Keys == apps.Keys && forall s | s in nodes :: StreamOk(nodes[s], apps[s])
  }

  ghost predicate Inv(g: Global) {
    && g.nodes.Keys == g.hist.servers
    && HistOk(g.hist)
    && NodesOk(g.hist, g.nodes)
    && NetOk(g.hist, g.net)
    && TagsOk(g.nodes, g.net)
    && StreamsOk(g.nodes, g.apps)
  }

  lemma InitialInv(g: Global)
    requires Initial(g)
    ensures Inv(g)
  {
    forall s | s in g.nodes ensures NodeOk(g.hist, s, g.nodes[s]) {
      assert InitialNode(g.nodes[s], s, g.hist.servers);
    }
    forall s | s in g.nodes ensures StreamOk(g.nodes[s], g.apps[s]) {
      assert InitialNode(g.nodes[s], s, g.hist.servers);
    }
  }
}
