/**
 The history only extends, and what holds relative to a history holds relative to its extensions.
 */
module Frames {
  import opened Logs
  import opened Consensus
  import opened Protocol
  import opened Invariants

  // The leaders' logs grow by entries of their own term; only server s leads the ones that change.
  ghost predicate GrowsInTerm(t: int, was: Log, now: Log) {
    was <= now && forall k | |was| <= k < |now| :: now[k].term == t
  }

  ghost predicate LogsGrow(h: History, h': History) {
    forall t | t in h.leaderLog :: t in h'.leaderLog && GrowsInTerm(t, h.leaderLog[t], h'.leaderLog[t])
  }

  ghost predicate AcksGrow(h: History, h': History) {
    forall s, t :: AckLen(h, s, t) <= AckLen(h', s, t)
  }

  // h' adds to h only records about server s.
  ghost predicate Extends(h: History, h': History, s: int) {
    && h'.servers == h.servers
    && LogsGrow(h, h')
    && AcksGrow(h, h')
    && (forall a | a in h.acks :: a in h'.acks)
    && (forall a | a in h'.acks :: a.server == s || (a in h.acks && h.acks[a] == h'.acks[a]))
    && (forall t | t in h.elections :: t in h'.elections && h'.elections[t] == h.elections[t])
    && (forall t | t in h'.elections :: t in h.elections || h'.elections[t].leader == s)
    && (forall t | t in h.leaderLog && t in h.elections && h.elections[t].leader != s ::
          t in h'.leaderLog && h'.leaderLog[t] == h.leaderLog[t])
    && (forall b | b in h.ballots :: b in h'.ballots && h'.ballots[b] == h.ballots[b])
    && (forall b | b in h'.ballots :: b in h.ballots || b.voter == s)
    && (forall a | a in h.candidacies && a in h'.candidacies :: h'.candidacies[a] == h.candidacies[a])
    && (forall a | a in h.candidacies :: a in h'.candidacies)
    && (forall a | a in h'.candidacies :: a in h.candidacies || a.server == s)
    && h.closed <= h'.closed
    && (forall a | a in h'.closed :: a in h.closed || a.server == s)
  }

  lemma ExtendsReflexive(h: History, s: int)
    ensures Extends(h, h, s)
  {
  }

  lemma GrowsTransitive(t: int, a: Log, b: Log, c: Log)
    requires GrowsInTerm(t, a, b) && GrowsInTerm(t, b, c)
    ensures GrowsInTerm(t, a, c)
  {
    forall k | |a| <= k < |c| ensures c[k].term == t {
      if k < |b| { assert b[k].term == t; }
    }
  }

  lemma ExtendsTransitive(h: History, m: History, h': History, s: int)
    requires Extends(h, m, s) && Extends(m, h', s)
    ensures Extends(h, h', s)
  {
    forall t | t in h.leaderLog ensures t in h'.leaderLog && GrowsInTerm(t, h.leaderLog[t], h'.leaderLog[t]) {
      GrowsTransitive(t, h.leaderLog[t], m.leaderLog[t], h'.leaderLog[t]);
    }
    forall s', t ensures AckLen(h, s', t) <= AckLen(h', s', t) {
      assert AckLen(h, s', t) <= AckLen(m, s', t) <= AckLen(h', s', t);
    }
  }

  lemma LogFrame(h: History, h': History, log: Log, bound: int)
    requires LogsGrow(h, h') && LogOk(h, log, bound)
    ensures LogOk(h', log, bound)
  {
    forall i | 0 <= i < |log| ensures Created(h'.leaderLog, log, i) {
      assert Created(h.leaderLog, log, i);
      assert log[..i + 1] <= h.leaderLog[log[i].term] <= h'.leaderLog[log[i].term];
    }
  }

  // A leader cannot make up for what it lacks: whatever it appends has a later term.
  lemma LacksFrame(h: History, h': History, term: int, len: nat, later: int)
    requires LeaderLogsOk(h) && LogsGrow(h, h') && term < later
    requires Lacks(h, term, len, later)
    ensures Lacks(h', term, len, later)
  {
    var was, now := h.leaderLog[later], h'.leaderLog[later];
    var p := h.leaderLog[term][..len];
    assert p == h'.leaderLog[term][..len];
    assert LogOk(h, h.leaderLog[term], term);
    if |was| < len && |was| < |now| {
      assert p[|was|].term <= term < later == now[|was|].term;
    }
  }

  lemma KeptFrame(h: History, h': History, term: int, len: nat, log: Log, bound: int)
    requires LeaderLogsOk(h) && LogsGrow(h, h')
    requires Kept(h, term, len, log, bound)
    ensures Kept(h', term, len, log, bound)
  {
    assert h.leaderLog[term][..len] == h'.leaderLog[term][..len];
    if Conflict(h, term, len, bound) {
      var later :| term < later <= bound && Lacks(h, term, len, later);
      LacksFrame(h, h', term, len, later);
    }
  }

  lemma RemembersFrame(h: History, h': History, server: int, before: int, log: Log, bound: int)
    requires LeaderLogsOk(h) && LogsGrow(h, h')
    requires forall t | t < before :: AckLen(h', server, t) == AckLen(h, server, t)
    requires Remembers(h, server, before, log, bound)
    ensures Remembers(h', server, before, log, bound)
  {
    forall term, len: nat | term < before && 0 < len <= AckLen(h', server, term)
      ensures Kept(h', term, len, log, bound)
    {
      assert Kept(h, term, len, log, bound);
      KeptFrame(h, h', term, len, log, bound);
    }
  }

  lemma CommittedFrame(h: History, h': History, term: int, len: nat)
    requires h'.servers == h.servers && LogsGrow(h, h') && AcksGrow(h, h')
    requires Committed(h, term, len)
    ensures Committed(h', term, len)
  {
    forall s | s in AckSet(h, term, len) ensures s in AckSet(h', term, len) {
      assert AckLen(h, s, term) <= AckLen(h', s, term);
    }
    SubsetSize(AckSet(h, term, len), AckSet(h', term, len));
  }

  lemma CommittedPrefixFrame(h: History, h': History, prefix: Log, bound: int, bound': int)
    requires h'.servers == h.servers && LogsGrow(h, h') && AcksGrow(h, h')
    requires CommittedPrefix(h, prefix, bound) && bound <= bound'
    ensures CommittedPrefix(h', prefix, bound')
  {
    if prefix != [] {
      var term, len: nat :| term <= bound && CommitWitness(h, prefix, term, len);
      CommittedFrame(h, h', term, len);
      assert h.leaderLog[term][..len] == h'.leaderLog[term][..len];
      assert CommitWitness(h', prefix, term, len);
    }
  }

  lemma OthersAcksSame(h: History, h': History, s: int, other: int, t: int)
    requires Extends(h, h', s) && other != s
    ensures AckLen(h', other, t) == AckLen(h, other, t)
  {
    var a := At(other, t);
    if a in h'.acks {
      assert a in h.acks && h.acks[a] == h'.acks[a];
    }
  }

  lemma PastFrame(h: History, h': History, s: int, n: Node)
    requires Extends(h, h', s) && n.id != s && PastOk(h, n)
    ensures PastOk(h', n)
  {
  }

  lemma CandidateFrame(h: History, h': History, s: int, n: Node)
    requires Extends(h, h', s) && n.id != s && CandidateOk(h, n)
    ensures CandidateOk(h', n)
  {
  }

  lemma LeaderFrame(h: History, h': History, s: int, n: Node)
    requires Extends(h, h', s) && n.id != s && LeaderOk(h, n)
    ensures LeaderOk(h', n)
  {
    OthersAcksSame(h, h', s, n.id, n.currentTerm);
    forall p | p in n.peers ensures PeerOk(h', n, p) {
      assert PeerOk(h, n, p);
      assert AckLen(h, p, n.currentTerm) <= AckLen(h', p, n.currentTerm);
    }
  }

  lemma NodeFrame(h: History, h': History, s: int, other: int, n: Node)
    requires LeaderLogsOk(h) && Extends(h, h', s) && other != s && NodeOk(h, other, n)
    ensures NodeOk(h', other, n)
  {
    LogFrame(h, h', n.log, n.currentTerm);
    PastFrame(h, h', s, n);
    forall t ensures AckLen(h', other, t) == AckLen(h, other, t) {
      OthersAcksSame(h, h', s, other, t);
    }
    RemembersFrame(h, h', other, n.currentTerm + 1, n.log, n.currentTerm);
    CommittedPrefixFrame(h, h', n.log[..n.commitIndex + 1], n.currentTerm, n.currentTerm);
    if n.state == Candidate { CandidateFrame(h, h', s, n); }
    if n.state == Leader { LeaderFrame(h, h', s, n); }
  }

  lemma LeaderCommitFrame(h: History, h': History, t: int, len: nat)
    requires h'.servers == h.servers && LogsGrow(h, h') && AcksGrow(h, h')
    requires t in h.leaderLog && len <= |h.leaderLog[t]| && CommittedPrefix(h, h.leaderLog[t][..len], t)
    ensures CommittedPrefix(h', h'.leaderLog[t][..len], t)
  {
    assert GrowsInTerm(t, h.leaderLog[t], h'.leaderLog[t]);
    assert h'.leaderLog[t][..len] == h.leaderLog[t][..len];
    CommittedPrefixFrame(h, h', h.leaderLog[t][..len], t, t);
  }

  lemma AppendReqFrame(h: History, h': History, s: int, r: AppendEntriesRequest)
    requires Extends(h, h', s) && AppendReqOk(h, r)
    ensures AppendReqOk(h', r)
  {
    LeaderCommitFrame(h, h', r.term, r.leaderCommit + 1);
    assert GrowsInTerm(r.term, h.leaderLog[r.term], h'.leaderLog[r.term]);
  }

  lemma MsgFrame(h: History, h': History, s: int, m: Msg)
    requires Extends(h, h', s) && MsgOk(h, m)
    ensures MsgOk(h', m)
  {
    match m
    case VoteCall(_, _, _) =>
    case VoteReturn(_, _, _, _) =>
    case AppendCall(_, r) => AppendReqFrame(h, h', s, r);
    case AppendReturn(f, r, _) =>
      AppendReqFrame(h, h', s, r);
      assert AckLen(h, f, r.term) <= AckLen(h', f, r.term);
  }

  // What a step keeps of the server that takes it: its term, its commit index, and every entry up
  // to the commit index.
  ghost predicate Keeps(n: Node, n': Node) {
    && n'.currentTerm >= n.currentTerm
    && n'.commitIndex >= n.commitIndex
    && 0 <= n.commitIndex + 1 <= |n.log|
    && n.log[..n.commitIndex + 1] <= n'.log
  }

  ghost predicate Advances(n: Node, n': Node) {
    Keeps(n, n') && n'.lastApplied == n.lastApplied
  }

  // A step of server s from n to n' that takes the history from h to h'.
  ghost predicate StepOk(h: History, h': History, s: int, n: Node, n': Node) {
    Extends(h, h', s) && HistOk(h') && NodeOk(h', s, n') && Advances(n, n')
  }

  lemma KeepsItself(n: Node)
    requires 0 <= n.commitIndex + 1 <= |n.log|
    ensures Keeps(n, n)
  {
  }

  // A step that leaves the log and the commit index alone.
  lemma AdvancesInPlace(n: Node, n': Node)
    requires n'.log == n.log && n'.commitIndex == n.commitIndex && n'.lastApplied == n.lastApplied
    requires n'.currentTerm >= n.currentTerm && 0 <= n.commitIndex + 1 <= |n.log|
    ensures Advances(n, n')
  {
  }

  // A step that only appends to the log.
  lemma AdvancesByAppending(n: Node, e: LogEntry)
    requires 0 <= n.commitIndex + 1 <= |n.log|
    ensures Advances(n, n.(log := n.log + [e]))
  {
    assert n.log <= n.log + [e];
  }

  lemma AdvancesTransitive(a: Node, b: Node, c: Node)
    requires Advances(a, b) && Advances(b, c)
    ensures Advances(a, c)
  {
    assert a.log[..a.commitIndex + 1] <= b.log[..b.commitIndex + 1] <= c.log;
  }

  lemma StepTransitive(h: History, m: History, h': History, s: int, n: Node, o: Node, n': Node)
    requires StepOk(h, m, s, n, o) && StepOk(m, h', s, o, n')
    ensures StepOk(h, h', s, n, n')
  {
    ExtendsTransitive(h, m, h', s);
    AdvancesTransitive(n, o, n');
  }

  lemma StreamFrame(n: Node, n': Node, a: App)
    requires StreamOk(n, a) && Advances(n, n') && n.lastApplied <= n.commitIndex
    ensures StreamOk(n', a)
  {
  }

  lemma NodesFrame(h: History, h': History, s: int, nodes: map<int, Node>, n: Node)
    requires LeaderLogsOk(h) && Extends(h, h', s) && NodesOk(h, nodes) && NodeOk(h', s, n)
    ensures NodesOk(h', nodes[s := n])
  {
    var nodes' := nodes[s := n];
    forall o | o in nodes' ensures NodeOk(h', o, nodes'[o]) {
      if o != s {
        assert NodeOk(h, o, nodes[o]);
        NodeFrame(h, h', s, o, nodes[o]);
      }
    }
  }

  lemma NetFrame(h: History, h': History, s: int, net: set<Msg>, sent: set<Msg>)
    requires Extends(h, h', s) && NetOk(h, net) && NetOk(h', sent)
    ensures NetOk(h', net + sent)
  {
    forall m | m in net + sent ensures MsgOk(h', m) {
      if m in net { MsgFrame(h, h', s, m); }
    }
  }

  lemma StreamsFrame(nodes: map<int, Node>, apps: map<int, App>, s: int, n: Node)
    requires StreamsOk(nodes, apps) && s in nodes
    requires Advances(nodes[s], n) && nodes[s].lastApplied <= nodes[s].commitIndex
    ensures StreamsOk(nodes[s := n], apps)
  {
    StreamFrame(nodes[s], n, apps[s]);
  }

  // A server never forgets a race, nor changes the term of one.
  predicate RacesGrow(n: Node, n': Node) {
    |n.races| <= |n'.races| && forall e | 0 <= e < |n.races| :: n'.races[e].term == n.races[e].term
  }

  lemma TagsFrame(nodes: map<int, Node>, net: set<Msg>, s: int, n: Node, sent: set<Msg>)
    requires TagsOk(nodes, net) && s in nodes && RacesGrow(nodes[s], n)
    requires TagsOk(nodes[s := n], sent)
    ensures TagsOk(nodes[s := n], net + sent)
  {
    forall m | m in net ensures TagOk(nodes[s := n], m) {
      assert TagOk(nodes, m);
    }
  }

  // A step of one server keeps the invariant if it keeps that server's part of it.
  lemma MoveKeepsInv(g: Global, s: int, n: Node, sent: set<Msg>, h: History)
    requires Inv(g) && s in g.nodes
    requires StepOk(g.hist, h, s, g.nodes[s], n)
    requires NetOk(h, sent) && TagsOk(g.nodes[s := n], g.net + sent)
    ensures Inv(Move(g, s, n, sent, h))
  {
    assert NodeOk(g.hist, s, g.nodes[s]);
    NodesFrame(g.hist, h, s, g.nodes, n);
    NetFrame(g.hist, h, s, g.net, sent);
    StreamsFrame(g.nodes, g.apps, s, n);
  }
}
