/**
 What a leader knows about its followers, how fast a lagging follower catches up, and why the
 order in which a follower accepts requests does not matter.
 */
module Leaders {
  import opened Logs
  import opened Consensus
  import opened Protocol
  import opened Invariants
  import opened Replication
  import opened Safety
  import opened Theorems

  // ---------- matchIndex ----------

  // p answered a request of leader s in term t that reached up to index m.
  ghost predicate AckFor(net: set<Msg>, s: int, t: int, p: int, m: int,
                         req: AppendEntriesRequest, resp: AppendEntriesResponse) {
    && AppendReturn(p, req, resp) in net
    && req.leaderId == s && req.term == t && resp.success && resp.term == t && EndOf(req) == m + 1
  }

  ghost predicate Acknowledged(net: set<Msg>, s: int, t: int, p: int, m: int) {
    m == -1 || exists req, resp :: AckFor(net, s, t, p, m, req, resp)
  }

  ghost predicate Backed(net: set<Msg>, n: Node) {
    n.state == Leader ==>
      forall p | p in n.peers :: Acknowledged(net, n.id, n.currentTerm, p, Lookup(n.matchIndex, p))
  }

  lemma StillAcknowledged(net: set<Msg>, net': set<Msg>, s: int, t: int, p: int, m: int)
    requires Acknowledged(net, s, t, p, m) && net <= net'
    ensures Acknowledged(net', s, t, p, m)
  {
    if m != -1 {
      var req, resp :| AckFor(net, s, t, p, m, req, resp);
      assert AckFor(net', s, t, p, m, req, resp);
    }
  }

  lemma StillBacked(net: set<Msg>, net': set<Msg>, n: Node, n': Node)
    requires Backed(net, n) && net <= net'
    requires n'.state == Leader ==> n.state == Leader
    requires n'.state == Leader ==>
               n'.id == n.id && n'.currentTerm == n.currentTerm && n'.peers == n.peers && n'.matchIndex == n.matchIndex
    ensures Backed(net', n')
  {
    if n'.state == Leader {
      forall p | p in n'.peers ensures Acknowledged(net', n'.id, n'.currentTerm, p, Lookup(n'.matchIndex, p)) {
        StillAcknowledged(net, net', n.id, n.currentTerm, p, Lookup(n.matchIndex, p));
      }
    }
  }

  // Becoming leader, and becoming leader again on a late vote reply, forgets every acknowledgement.
  lemma RestartBacked(net: set<Msg>, n: Node)
    ensures Backed(net, StartLeader(n))
  {
  }

  lemma ReplyBacked(net: set<Msg>, n: Node, f: int, req: AppendEntriesRequest, resp: AppendEntriesResponse)
    requires Backed(net, n) && AppendReturn(f, req, resp) in net && req.leaderId == n.id
    requires CountsOwnTerm(n, req, resp)
    ensures Backed(net, HandleAppendReply(n, f, req, resp))
  {
    var n' := HandleAppendReply(n, f, req, resp);
    if n'.state == Leader && req.term == resp.term && resp.success {
      assert AckFor(net, n.id, n.currentTerm, f, EndOf(req) - 1, req, resp);
      forall p | p in n'.peers ensures Acknowledged(net, n'.id, n'.currentTerm, p, Lookup(n'.matchIndex, p)) {
        assert p != f ==> Lookup(n'.matchIndex, p) == Lookup(n.matchIndex, p);
      }
    }
  }

  lemma VoteRequestBacked(net: set<Msg>, net': set<Msg>, n: Node, req: RequestVoteRequest)
    requires Backed(net, n) && net <= net'
    ensures Backed(net', HandleRequestVote(n, req).0)
  {
    StillBacked(net, net', n, HandleRequestVote(n, req).0);
  }

  lemma VoteReplyBacked(net: set<Msg>, n: Node, v: int, race: nat, resp: RequestVoteResponse)
    requires Backed(net, n) && race < |n.races|
    ensures Backed(net, HandleVoteReply(n, v, race, resp))
  {
    RestartBacked(net, n);
  }

  lemma AppendBacked(net: set<Msg>, net': set<Msg>, n: Node, req: AppendEntriesRequest)
    requires Backed(net, n) && net <= net'
    ensures Backed(net', HandleAppendEntries(n, req).0)
  {
    StillBacked(net, net', n, HandleAppendEntries(n, req).0);
  }

  lemma StepBacked(g: Global, step: Step)
    requires Enabled(g, step) && Guarded(g, step) && g.nodes[step.s].id == step.s
    requires Backed(g.net, g.nodes[step.s])
    ensures step.s in Next(g, step).nodes && Backed(Next(g, step).net, Next(g, step).nodes[step.s])
  {
    var n, net, net' := g.nodes[step.s], g.net, Next(g, step).net;
    match step
    case Timeout(_) =>
    case ReceiveVoteRequest(_, _, req) => VoteRequestBacked(net, net', n, req);
    case ReceiveVoteReply(_, v, race, _, resp) =>
      assert net' == net;
      VoteReplyBacked(net, n, v, race, resp);
    case StartLeading(_, race) =>
      assert net' == net;
      RestartBacked(net, n);
      StillBacked(net, net, StartLeader(n), RunStart(n, race));
    case StartRound(_) => StillBacked(net, net', n, BeginRound(n));
    case ClientSubmit(_, command) => StillBacked(net, net', n, Submit(n, command));
    case ReceiveAppend(s, req) => AppendBacked(net, net', n, req);
    case ReceiveAppendReply(_, f, req, resp) =>
      assert net' == net;
      ReplyBacked(net, n, f, req, resp);
    case EmitCommits(_) => StillBacked(net, net', n, SendCommits(n));
    case _ => StillBacked(net, net', n, n);
  }

  ghost predicate OthersStay(g: Global, g': Global, s: int) {
    forall o | o in g.nodes && o != s :: o in g'.nodes && g'.nodes[o] == g.nodes[o]
  }

  lemma StepOthers(g: Global, step: Step)
    requires Enabled(g, step)
    ensures Next(g, step).nodes.Keys == g.nodes.Keys && OthersStay(g, Next(g, step), step.s)
  {
  }

  lemma {:induction false} RunBacked(run: Run, i: nat, s: int)
    requires run.ValidAndGuarded() && Within(run, i, s)
    ensures Backed(run.states[i].net, NodeAt(run, i, s))
  {
    if i == 0 {
      assert InitialNode(NodeAt(run, 0, s), s, run.states[0].hist.servers);
    } else {
      RunStepPrecedes(run, i - 1);
      RunBacked(run, i - 1, s);
      NodeAtOk(run, i - 1, s);
      assert run.StepAt(i - 1) && run.GuardedAt(i - 1);
      if run.steps[i - 1].s == s {
        StepBacked(run.states[i - 1], run.steps[i - 1]);
      } else {
        StepOthers(run.states[i - 1], run.steps[i - 1]);
        StillBacked(run.states[i - 1].net, run.states[i].net, NodeAt(run, i - 1, s), NodeAt(run, i, s));
      }
    }
  }

  // Every matchIndex of a leader is backed by a reply of that peer in the leader's own term, and
  // while the peer stays in the term its log has everything up to that index.
  lemma MatchIndexSound(run: Run, i: nat, s: int, p: int)
    requires run.ValidAndGuarded() && Within(run, i, s) && Within(run, i, p)
    requires NodeAt(run, i, s).state == Leader && p != s
    ensures var n := NodeAt(run, i, s);
            var m := Lookup(n.matchIndex, p);
            && -1 <= m < |n.log|
            && Acknowledged(run.states[i].net, s, n.currentTerm, p, m)
            && (NodeAt(run, i, p).currentTerm == n.currentTerm ==> n.log[..m + 1] <= NodeAt(run, i, p).log)
  {
    RunBacked(run, i, s);
    MatchedAt(run, i, s, p);
    assert NodeAt(run, i, s).id == s;
  }

  lemma MatchedAt(run: Run, i: nat, s: int, p: int)
    requires run.ValidAndGuarded() && Within(run, i, s) && Within(run, i, p)
    requires NodeAt(run, i, s).state == Leader && p != s
    ensures var n := NodeAt(run, i, s);
            var m := Lookup(n.matchIndex, p);
            && n.id == s && p in n.peers && -1 <= m < |n.log|
            && (NodeAt(run, i, p).currentTerm == n.currentTerm ==> n.log[..m + 1] <= NodeAt(run, i, p).log)
  {
    PeerAt(run, i, s, p);
    RemembersAt(run, i, p);
    MatchedPeerHas(run.states[i].hist, NodeAt(run, i, s), p, NodeAt(run, i, p));
  }

  lemma PeerAt(run: Run, i: nat, s: int, p: int)
    requires run.ValidAndGuarded() && Within(run, i, s) && Within(run, i, p)
    requires NodeAt(run, i, s).state == Leader && p != s
    ensures var n, h := NodeAt(run, i, s), run.states[i].hist;
            && n.id == s && p in n.peers && PeerOk(h, n, p)
            && n.currentTerm in h.leaderLog && h.leaderLog[n.currentTerm] == n.log
  {
    NodeAtOk(run, i, s);
    IsServer(run, i, p);
    assert PeerOk(run.states[i].hist, NodeAt(run, i, s), p);
  }

  lemma IsServer(run: Run, i: nat, p: int)
    requires run.ValidAndGuarded() && Within(run, i, p)
    ensures p in run.states[i].hist.servers
  {
    NodeAtOk(run, i, p);
  }

  lemma RemembersAt(run: Run, i: nat, p: int)
    requires run.ValidAndGuarded() && Within(run, i, p)
    ensures var n := NodeAt(run, i, p);
            Remembers(run.states[i].hist, p, n.currentTerm + 1, n.log, n.currentTerm)
  {
    NodeAtOk(run, i, p);
  }

  lemma MatchedPeerHas(h: History, n: Node, p: int, peer: Node)
    requires PeerOk(h, n, p) && n.currentTerm in h.leaderLog && h.leaderLog[n.currentTerm] == n.log
    requires Remembers(h, p, peer.currentTerm + 1, peer.log, peer.currentTerm)
    ensures peer.currentTerm == n.currentTerm ==> n.log[..Lookup(n.matchIndex, p) + 1] <= peer.log
  {
    var len := Lookup(n.matchIndex, p) + 1;
    if peer.currentTerm == n.currentTerm && len > 0 {
      assert Kept(h, n.currentTerm, len, peer.log, n.currentTerm);
    }
  }

  // ---------- indexes stay in range ----------

  lemma IndexesInRange(run: Run, i: nat, s: int, p: int)
    requires run.ValidAndGuarded() && Within(run, i, s)
    ensures var n := NodeAt(run, i, s);
            && Sorted(n.log, n.currentTerm)
            && -1 <= n.lastApplied <= n.commitIndex < |n.log|
            && (n.state == Leader && p in n.peers ==>
                  0 <= Lookup(n.nextIndex, p) <= |n.log| && -1 <= Lookup(n.matchIndex, p) < |n.log|)
    ensures forall dst, req | AppendCall(dst, req) in run.states[i].net ::
              -1 <= req.prevLogIndex && -1 <= req.leaderCommit < EndOf(req)
  {
    NodeAtOk(run, i, s);
    var n := NodeAt(run, i, s);
    assert n.state == Leader && p in n.peers ==> PeerOk(run.states[i].hist, n, p);
    forall dst, req | AppendCall(dst, req) in run.states[i].net
      ensures -1 <= req.prevLogIndex && -1 <= req.leaderCommit < EndOf(req)
    {
      RequestOk(run, i, dst, req);
    }
  }

  // ---------- one rewind is enough ----------

  lemma WholeLogAccepted(n: Node, req: AppendEntriesRequest, leader: Log)
    requires req.term >= n.currentTerm && req.prevLogIndex == -1 && req.entries == leader
    requires LogMatching(n.log, leader)
    ensures HandleAppendEntries(n, req).1.success
    ensures HandleAppendEntries(n, req).0.log == Merge(n.log, leader)
  {
    assert leader[0..] == leader;
    SpliceIsMerge(n.log, leader, 0);
  }

  // A request that starts at index 0, whenever it arrives: any server that has not moved to a later
  // term accepts it and ends up with everything it carries as a prefix of its log.
  lemma WholeRequestAccepted(run: Run, i: nat, t: int, dst: int, req: AppendEntriesRequest)
    requires run.ValidAndGuarded() && Within(run, i, t) && NodeAt(run, i, t).currentTerm <= req.term
    requires AppendCall(dst, req) in run.states[i].net && req.prevLogIndex == -1
    ensures HandleAppendEntries(NodeAt(run, i, t), req).1.success
    ensures HandleAppendEntries(NodeAt(run, i, t), req).0.log == Merge(NodeAt(run, i, t).log, req.entries)
    ensures req.entries <= HandleAppendEntries(NodeAt(run, i, t), req).0.log
  {
    CarriedMatches(run, i, i, t, dst, req);
    assert Carried(run.states[i].hist, req) == req.entries;
    WholeLogAccepted(NodeAt(run, i, t), req, req.entries);
  }

  // A rejection of the leader's own term sends it back to the start of its log, and does no more.
  lemma RejectionRewinds(run: Run, i: nat, s: int, f: int, req: AppendEntriesRequest, resp: AppendEntriesResponse)
    requires run.ValidAndGuarded() && Within(run, i, s) && NodeAt(run, i, s).state == Leader
    requires AppendReturn(f, req, resp) in run.states[i].net && req.leaderId == s && !resp.success
    requires resp.term == req.term == NodeAt(run, i, s).currentTerm
    ensures HandleAppendReply(NodeAt(run, i, s), f, req, resp)
            == NodeAt(run, i, s).(nextIndex := NodeAt(run, i, s).nextIndex[f := 0])
  {
    RunInv(run, i);
    CallsOk(run.states[i], AppendReturn(f, req, resp));
    NodeAtOk(run, i, s);
    RewindsToZero(NodeAt(run, i, s), resp);
  }

  lemma RejectionInRun(run: Run, i: nat, s: int, f: int, req: AppendEntriesRequest, resp: AppendEntriesResponse)
    requires run.ValidAndGuarded() && i < |run.steps| && run.steps[i] == ReceiveAppendReply(s, f, req, resp)
    requires Within(run, i, s) && NodeAt(run, i, s).state == Leader
    requires !resp.success && resp.term == req.term == NodeAt(run, i, s).currentTerm
    ensures Within(run, i + 1, s)
    ensures NodeAt(run, i + 1, s) == NodeAt(run, i, s).(nextIndex := NodeAt(run, i, s).nextIndex[f := 0])
  {
    assert run.StepAt(i);
    RejectionRewinds(run, i, s, f, req, resp);
    RunStepPrecedes(run, i);
  }

  // The request that carries the whole log.
  function WholeRequest(n: Node, term: int): AppendEntriesRequest {
    AppendEntriesRequest(term, n.id, -1, -1, n.log, n.commitIndex)
  }

  lemma BuiltFromZero(n: Node, f: int, term: int)
    requires Lookup(n.nextIndex, f) == 0
    ensures BuildAppendRequest(n, f, term) == WholeRequest(n, term)
  {
    assert n.log[0..] == n.log;
  }

  // A request built while the next index is 0 carries the whole log.
  lemma WholeRequestSent(run: Run, k: nat, s: int, f: int, roundTerm: int)
    requires run.ValidAndGuarded() && k < |run.steps| && run.steps[k] == Step.SendAppend(s, f, roundTerm)
    requires Within(run, k, s) && Lookup(NodeAt(run, k, s).nextIndex, f) == 0
    ensures LeadsRound(NodeAt(run, k, s), roundTerm)
    ensures AppendCall(f, WholeRequest(NodeAt(run, k, s), roundTerm)) in run.states[k + 1].net
  {
    assert run.StepAt(k) && run.GuardedAt(k);
    BuiltFromZero(NodeAt(run, k, s), f, roundTerm);
  }

  // One rejection is enough: unless a later reply moves the next index again, the next request to
  // that peer carries the leader's whole log, and however late it arrives, any server that has not
  // moved to a later term accepts it and ends up with the leader's log as a prefix of its own.
  lemma OneRewindCatchesUp(run: Run, i: nat, k: nat, j: nat, s: int, f: int, t: int,
                           req: AppendEntriesRequest, resp: AppendEntriesResponse)
    requires run.ValidAndGuarded() && i < k < j && k < |run.steps| && Within(run, j, t)
    requires Within(run, i, s) && Within(run, i + 1, s) && Within(run, k, s)
    requires run.steps[i] == ReceiveAppendReply(s, f, req, resp) && NodeAt(run, i, s).state == Leader
    requires !resp.success && resp.term == req.term == NodeAt(run, i, s).currentTerm
    requires run.steps[k] == Step.SendAppend(s, f, req.term)
    requires Lookup(NodeAt(run, k, s).nextIndex, f) == Lookup(NodeAt(run, i + 1, s).nextIndex, f)
    requires NodeAt(run, j, t).currentTerm <= req.term
    ensures var n := NodeAt(run, k, s);
            var next := WholeRequest(n, req.term);
            && AppendCall(f, next) in run.states[j].net
            && HandleAppendEntries(NodeAt(run, j, t), next).1.success
            && n.log <= HandleAppendEntries(NodeAt(run, j, t), next).0.log
  {
    RejectionInRun(run, i, s, f, req, resp);
    WholeRequestSent(run, k, s, f, req.term);
    RunPrecedes(run, k + 1, j);
    WholeRequestAccepted(run, j, t, f, WholeRequest(NodeAt(run, k, s), req.term));
  }

  // ---------- requests of one term commute ----------

  function Max(a: int, b: int): int { if a > b then a else b }

  // Taking a request that stands for a prefix of the leader's log, without its starting point.
  function Take(n: Node, leader: Log, end: nat, leaderCommit: int): Node
    requires end <= |leader|
  {
    n.(log := Merge(n.log, leader[..end]), commitIndex := Max(n.commitIndex, leaderCommit))
  }

  lemma TakeIsMerge(n: Node, leader: Log, r: AppendEntriesRequest)
    requires LogMatching(n.log, leader) && RequestOf(leader, r) && Accepts(n, r)
    ensures TakeEntries(n, r) == Take(n, leader, EndOf(r), r.leaderCommit)
  {
    SpliceRequest(n, leader, r);
    MergeIsLonger(n.log, leader, EndOf(r));
  }

  lemma MergeIsLonger(mine: Log, leader: Log, end: nat)
    requires end <= |leader|
    ensures |Merge(mine, leader[..end])| >= end
  {
  }

  lemma TakeMatches(n: Node, leader: Log, r: AppendEntriesRequest)
    requires LogMatching(n.log, leader) && RequestOf(leader, r) && Accepts(n, r)
    ensures LogMatching(TakeEntries(n, r).log, leader)
  {
    TakeIsMerge(n, leader, r);
    MergeMatches(n.log, leader, EndOf(r));
  }

  lemma MergeMatches(mine: Log, leader: Log, end: nat)
    requires LogMatching(mine, leader) && end <= |leader|
    ensures LogMatching(Merge(mine, leader[..end]), leader)
  {
    MatchesItsPrefix(leader, end);
  }

  // What a shorter prefix of the leader's log would bring is there already.
  lemma SharedSoFar(mine: Log, leader: Log, prev: nat, end: nat)
    requires prev < |mine| && prev < |leader| && mine[prev].term == leader[prev].term
    requires LogMatching(mine, leader) && end <= prev + 1
    ensures leader[..end] <= mine
  {
    assert mine[..prev + 1] == leader[..prev + 1];
    assert leader[..end] == mine[..prev + 1][..end];
  }

  // Taking one request of a term leaves a request that was acceptable acceptable.
  lemma StillAccepts(n: Node, leader: Log, r1: AppendEntriesRequest, r2: AppendEntriesRequest)
    requires LogMatching(n.log, leader) && RequestOf(leader, r1) && RequestOf(leader, r2)
    requires Accepts(n, r1) && Accepts(n, r2)
    ensures Accepts(TakeEntries(n, r1), r2)
  {
    TakeIsMerge(n, leader, r1);
    var prev, end := r2.prevLogIndex, EndOf(r1);
    if prev >= 0 && end <= prev + 1 {
      SharedSoFar(n.log, leader, prev, end);
    }
  }

  lemma TakenTwice(n: Node, leader: Log, r1: AppendEntriesRequest, r2: AppendEntriesRequest)
    requires LogMatching(n.log, leader) && RequestOf(leader, r1) && RequestOf(leader, r2)
    requires Accepts(n, r1) && Accepts(n, r2)
    ensures Accepts(TakeEntries(n, r1), r2)
    ensures TakeEntries(TakeEntries(n, r1), r2)
            == Take(Take(n, leader, EndOf(r1), r1.leaderCommit), leader, EndOf(r2), r2.leaderCommit)
  {
    StillAccepts(n, leader, r1, r2);
    TakeIsMerge(n, leader, r1);
    TakeMatches(n, leader, r1);
    TakeIsMerge(TakeEntries(n, r1), leader, r2);
  }

  lemma TakesCommute(n: Node, leader: Log, e1: nat, e2: nat, c1: int, c2: int)
    requires e1 <= |leader| && e2 <= |leader|
    ensures Take(Take(n, leader, e1, c1), leader, e2, c2) == Take(Take(n, leader, e2, c2), leader, e1, c1)
    ensures Take(Take(n, leader, e1, c1), leader, e1, c1) == Take(n, leader, e1, c1)
  {
    if e1 <= e2 {
      MergeReorders(n.log, leader[..e1], leader[..e2]);
    } else {
      MergeReorders(n.log, leader[..e2], leader[..e1]);
    }
  }

  // Two requests of one leader term that a follower accepts can be taken in either order, and
  // taking one again changes nothing.
  lemma AcceptedRequestsCommute(run: Run, i: nat, s: int, r1: AppendEntriesRequest, r2: AppendEntriesRequest)
    requires run.ValidAndGuarded() && Within(run, i, s)
    requires AppendCall(s, r1) in run.states[i].net && AppendCall(s, r2) in run.states[i].net
    requires r1.term == r2.term
    requires Accepts(NodeAt(run, i, s), r1) && Accepts(NodeAt(run, i, s), r2)
    ensures var n := NodeAt(run, i, s);
            var n1, n2 := TakeEntries(n, r1), TakeEntries(n, r2);
            && Accepts(n1, r1) && TakeEntries(n1, r1) == n1
            && Accepts(n1, r2) && Accepts(n2, r1)
            && TakeEntries(n1, r2) == TakeEntries(n2, r1)
  {
    var n, h := NodeAt(run, i, s), run.states[i].hist;
    var leader := TheirLeader(run, i, s, r1, r2);
    TakeIsMerge(n, leader, r1);
    TakenTwice(n, leader, r1, r1);
    TakenTwice(n, leader, r1, r2);
    TakenTwice(n, leader, r2, r1);
    TakesCommute(n, leader, EndOf(r1), EndOf(r2), r1.leaderCommit, r2.leaderCommit);
  }

  lemma TheirLeader(run: Run, i: nat, s: int, r1: AppendEntriesRequest, r2: AppendEntriesRequest)
    returns (leader: Log)
    requires run.ValidAndGuarded() && Within(run, i, s)
    requires AppendCall(s, r1) in run.states[i].net && AppendCall(s, r2) in run.states[i].net
    requires r1.term == r2.term
    ensures LogMatching(NodeAt(run, i, s).log, leader) && RequestOf(leader, r1) && RequestOf(leader, r2)
  {
    var n, h := NodeAt(run, i, s), run.states[i].hist;
    NodeAtOk(run, i, s);
    RequestOk(run, i, s, r1);
    RequestOk(run, i, s, r2);
    leader := h.leaderLog[r1.term];
    LeaderLogMatches(h, n.log, n.currentTerm, r1.term);
  }
}
