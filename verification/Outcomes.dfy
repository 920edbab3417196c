/**
 What the handlers achieve, stated on the servers' fields: when a request is accepted, how far a
 leader commits, what a wake-up emits, and how servers step down and start over.
 */
module Outcomes {
  import opened Logs
  import opened Consensus
  import opened Protocol
  import opened Invariants
  import opened Replication
  import opened Safety
  import opened Theorems
  import opened Leaders

  function Greater(a: int, b: int): int { if a > b then a else b }

  // ---------- requests ----------

  // A reply carries the greater of the two terms, which is the server's own from then on; a stale
  // request is refused and changes nothing, and any other one finds or leaves a follower.
  lemma AppendReplyTerm(n: Node, req: AppendEntriesRequest)
    ensures var (n', resp) := HandleAppendEntries(n, req);
            && resp.term == n'.currentTerm == Greater(n.currentTerm, req.term)
            && (req.term < n.currentTerm ==> !resp.success && n' == n)
            && (req.term >= n.currentTerm ==> n'.state == Follower)
            && (req.term > n.currentTerm || n.state != Follower ==> req.term < n.currentTerm || n'.votedFor == -1)
            && (!resp.success ==> n'.log == n.log && n'.commitIndex == n.commitIndex)
            && n'.lastApplied == n.lastApplied
  {
  }

  // For logs that match, finding the entry before the request is having everything up to it.
  lemma FindsPrevious(n: Node, leader: Log, req: AppendEntriesRequest)
    requires LogMatching(n.log, leader) && RequestOf(leader, req) && req.term >= n.currentTerm
    ensures HandleAppendEntries(n, req).1.success <==>
              req.prevLogIndex == -1 || leader[..req.prevLogIndex + 1] <= n.log
  {
    var at := req.prevLogIndex + 1;
    if at > 0 && HandleAppendEntries(n, req).1.success {
      assert n.log[at - 1].term == leader[at - 1].term;
      assert n.log[..at - 1 + 1] == leader[..at - 1 + 1];
    }
  }

  // A request in flight is accepted by exactly those servers that are not in a later term and have
  // everything that the leader's log has before the entries of the request.
  lemma AcceptedIff(run: Run, i: nat, t: int, dst: int, req: AppendEntriesRequest)
    requires run.ValidAndGuarded() && Within(run, i, t) && AppendCall(dst, req) in run.states[i].net
    ensures var n, h := NodeAt(run, i, t), run.states[i].hist;
            && req.term in h.leaderLog && -1 <= req.prevLogIndex < |h.leaderLog[req.term]|
            && (HandleAppendEntries(n, req).1.success <==>
                  n.currentTerm <= req.term &&
                  (req.prevLogIndex == -1 || h.leaderLog[req.term][..req.prevLogIndex + 1] <= n.log))
  {
    var n, h := NodeAt(run, i, t), run.states[i].hist;
    RequestOk(run, i, dst, req);
    AppendReplyTerm(n, req);
    MatchesLeaderLog(run, i, t, req.term);
    if n.currentTerm <= req.term {
      FindsPrevious(n, h.leaderLog[req.term], req);
    }
  }

  lemma MatchesLeaderLog(run: Run, i: nat, t: int, term: int)
    requires run.ValidAndGuarded() && Within(run, i, t) && term in run.states[i].hist.leaderLog
    ensures LogMatching(NodeAt(run, i, t).log, run.states[i].hist.leaderLog[term])
  {
    NodeAtOk(run, i, t);
    LeaderLogMatches(run.states[i].hist, NodeAt(run, i, t).log, NodeAt(run, i, t).currentTerm, term);
  }

  // The same without history: in terms of the log that the sender had when it built the request.
  lemma AcceptedIffHasSendersPrefix(run: Run, i: nat, t: int, dst: int, req: AppendEntriesRequest) returns (k: nat)
    requires run.ValidAndGuarded() && Within(run, i, t) && AppendCall(dst, req) in run.states[i].net
    ensures k < i && Within(run, k, req.leaderId) && LeadsRound(NodeAt(run, k, req.leaderId), req.term)
    ensures -1 <= req.prevLogIndex < |NodeAt(run, k, req.leaderId).log|
    ensures HandleAppendEntries(NodeAt(run, i, t), req).1.success <==>
              NodeAt(run, i, t).currentTerm <= req.term &&
              NodeAt(run, k, req.leaderId).log[..req.prevLogIndex + 1] <= NodeAt(run, i, t).log
  {
    k := RequestProvenance(run, i, dst, req);
    RequestOk(run, i, dst, req);
    AcceptedIff(run, i, t, dst, req);
    CarriesSendersLog(run, k, i, req);
    var sender, leader := NodeAt(run, k, req.leaderId).log, run.states[i].hist.leaderLog[req.term];
    assert sender == leader[..EndOf(req)];
    SamePrefix(sender, leader, req.prevLogIndex + 1);
  }

  lemma SamePrefix(short: Log, long: Log, at: nat)
    requires short <= long && at <= |short|
    ensures short[..at] == long[..at]
  {
  }

  // ---------- how far a leader commits ----------

  // Some majority of the servers, the leader among them, is known to have the log up to index i.
  ghost predicate MajorityHas(n: Node, i: int) {
    exists q: set<int> :: q <= n.peers + {n.id} && AllKnown(n, q, i) && 2 * |q| > |n.peers| + 1
  }

  ghost predicate AllKnown(n: Node, q: set<int>, i: int) {
    n.id in q && forall p | p in q && p != n.id :: Lookup(n.matchIndex, p) >= i
  }

  // An entry of the leader's own term that a majority has.
  ghost predicate MayCommit(n: Node, i: int) {
    0 <= i < |n.log| && n.log[i].term == n.currentTerm && MajorityHas(n, i)
  }

  lemma MatchedIsMajority(n: Node, i: int)
    requires n.id !in n.peers
    ensures MajorityHas(n, i) <==> 2 * (|Matched(n, i)| + 1) > |n.peers| + 1
  {
    var m := Matched(n, i);
    if MajorityHas(n, i) {
      var q: set<int> :| q <= n.peers + {n.id} && AllKnown(n, q, i) && 2 * |q| > |n.peers| + 1;
      SubsetSize(q - {n.id}, m);
      assert |q| == |q - {n.id}| + 1;
    }
    if 2 * (|m| + 1) > |n.peers| + 1 {
      var q := m + {n.id};
      assert AllKnown(n, q, i) && |q| == |m| + 1;
    }
  }

  lemma MayCommitIff(n: Node, i: int)
    requires n.id !in n.peers
    ensures MayCommit(n, i) <==> Committable(n, i)
  {
    MatchedIsMajority(n, i);
  }

  // c is the greatest index above `was` that may be committed, or `was` if there is none.
  ghost predicate GreatestCommit(n: Node, was: int, c: int) {
    && (c == was || (was < c && MayCommit(n, c)))
    && forall i | was < i && MayCommit(n, i) :: i <= c
  }

  // A success reply that counts leaves the commit index at the greatest index above the old one that
  // holds an entry of the leader's term and that some majority is known to have.
  lemma CommitsTheGreatest(n: Node, f: int, req: AppendEntriesRequest, resp: AppendEntriesResponse)
    requires n.state == Leader && n.id !in n.peers && resp.success && req.term == resp.term <= n.currentTerm
    ensures var n' := HandleAppendReply(n, f, req, resp);
            && n'.log == n.log && n'.currentTerm == n.currentTerm && n'.state == Leader
            && Lookup(n'.matchIndex, f) == EndOf(req) - 1 && Lookup(n'.nextIndex, f) == EndOf(req)
            && (forall p | p != f :: Lookup(n'.matchIndex, p) == Lookup(n.matchIndex, p))
            && (forall p | p != f :: Lookup(n'.nextIndex, p) == Lookup(n.nextIndex, p))
            && GreatestCommit(n', n.commitIndex, n'.commitIndex)
  {
    var n1, n' := Acknowledge(n, f, EndOf(req)), HandleAppendReply(n, f, req, resp);
    AdvanceToIsGreatest(n1, |n.log| - 1);
    forall i ensures MayCommit(n', i) <==> Committable(n1, i) {
      MayCommitIff(n', i);
      assert Matched(n', i) == Matched(n1, i);
    }
  }

  // A leader whose commit index has reached everything that a majority is known to have.
  ghost predicate CaughtUp(n: Node) {
    n.state == Leader && n.peers != {} ==> forall i | MayCommit(n, i) :: i <= n.commitIndex
  }

  // Knowing of nobody else, a leader with peers knows of no majority.
  lemma NobodyKnown(n: Node, i: int)
    requires n.peers != {} && n.id !in n.peers && forall p | p in n.peers :: Lookup(n.matchIndex, p) < i
    ensures !MajorityHas(n, i)
  {
    assert Matched(n, i) == {};
    MatchedIsMajority(n, i);
    assert |n.peers| == 0 ==> n.peers == {};
  }

  lemma StartCaughtUp(n: Node, race: nat)
    requires n.id !in n.peers
    ensures CaughtUp(StartLeader(n)) && CaughtUp(RunStart(n, race))
  {
    if n.peers != {} {
      forall i | 0 <= i < |n.log| ensures !MajorityHas(StartLeader(n), i) && !MajorityHas(RunStart(n, race), i) {
        NobodyKnown(StartLeader(n), i);
        NobodyKnown(RunStart(n, race), i);
      }
    }
  }

  // A step that gives a leader no new entry of its term that a majority is known to have.
  lemma SameCaughtUp(n: Node, n': Node)
    requires CaughtUp(n) && n.id !in n.peers
    requires n'.state == Leader ==> n.state == Leader && n'.id == n.id && n'.peers == n.peers
    requires n'.state == Leader ==>
               n'.currentTerm == n.currentTerm && n'.log == n.log && n'.matchIndex == n.matchIndex &&
               n'.commitIndex == n.commitIndex
    ensures CaughtUp(n')
  {
    if n'.state == Leader {
      forall i ensures MayCommit(n', i) <==> MayCommit(n, i) {
        MatchedIsMajority(n, i);
        MatchedIsMajority(n', i);
        assert Matched(n', i) == Matched(n, i);
      }
    }
  }

  lemma SubmitCaughtUp(n: Node, e: LogEntry)
    requires CaughtUp(n) && n.id !in n.peers && n.state == Leader
    requires forall p | p in n.peers :: Lookup(n.matchIndex, p) < |n.log|
    ensures CaughtUp(n.(log := n.log + [e]))
  {
    var n' := n.(log := n.log + [e]);
    if n.peers != {} {
      NobodyKnown(n', |n.log|);
      forall i | MayCommit(n', i) ensures i <= n.commitIndex {
        MatchedIsMajority(n, i);
        MatchedIsMajority(n', i);
        assert Matched(n', i) == Matched(n, i);
        assert MayCommit(n, i);
      }
    }
  }

  lemma ReplyCaughtUp(n: Node, f: int, req: AppendEntriesRequest, resp: AppendEntriesResponse)
    requires CaughtUp(n) && n.id !in n.peers
    ensures CaughtUp(HandleAppendReply(n, f, req, resp))
  {
    var n' := HandleAppendReply(n, f, req, resp);
    if n.state == Leader && resp.success && req.term == resp.term <= n.currentTerm {
      CommitsTheGreatest(n, f, req, resp);
      forall i | MayCommit(n', i) ensures i <= n'.commitIndex { }
    } else {
      SameCaughtUp(n, n');
    }
  }

  lemma StepCaughtUp(g: Global, step: Step)
    requires Enabled(g, step) && CaughtUp(g.nodes[step.s]) && g.nodes[step.s].id !in g.nodes[step.s].peers
    requires g.nodes[step.s].state == Leader ==>
               forall p | p in g.nodes[step.s].peers :: Lookup(g.nodes[step.s].matchIndex, p) < |g.nodes[step.s].log|
    ensures step.s in Next(g, step).nodes && CaughtUp(Next(g, step).nodes[step.s])
  {
    var n := g.nodes[step.s];
    match step
    case Timeout(_) => SameCaughtUp(n, StartElection(n));
    case ReceiveVoteRequest(_, _, req) => SameCaughtUp(n, HandleRequestVote(n, req).0);
    case ReceiveVoteReply(_, voter, race, _, resp) =>
      StartCaughtUp(n, race);
      if n.state != Leader { SameCaughtUp(n, HandleVoteReply(n, voter, race, resp)); }
    case StartLeading(_, race) => StartCaughtUp(n, race);
    case ClientSubmit(_, command) =>
      if n.state == Leader { SubmitCaughtUp(n, LogEntry(command, n.currentTerm)); }
    case StartRound(_) => SameCaughtUp(n, BeginRound(n));
    case ReceiveAppend(_, req) => SameCaughtUp(n, HandleAppendEntries(n, req).0);
    case ReceiveAppendReply(_, f, req, resp) => ReplyCaughtUp(n, f, req, resp);
    case EmitCommits(_) => SameCaughtUp(n, SendCommits(n));
    case _ =>
  }

  // In every state of a checked run, a leader that has peers has committed every entry of its own
  // term that some majority is known to have.
  lemma {:induction false} LeaderIsCaughtUp(run: Run, i: nat, s: int)
    requires run.ValidAndGuarded() && Within(run, i, s)
    ensures CaughtUp(NodeAt(run, i, s))
  {
    if i == 0 {
      assert InitialNode(NodeAt(run, 0, s), s, run.states[0].hist.servers);
    } else {
      RunStepPrecedes(run, i - 1);
      LeaderIsCaughtUp(run, i - 1, s);
      assert run.StepAt(i - 1);
      if run.steps[i - 1].s == s {
        MatchBelow(run, i - 1, s);
        StepCaughtUp(run.states[i - 1], run.steps[i - 1]);
      } else {
        StepOthers(run.states[i - 1], run.steps[i - 1]);
      }
    }
  }

  lemma MatchBelow(run: Run, i: nat, s: int)
    requires run.ValidAndGuarded() && Within(run, i, s)
    ensures var n := NodeAt(run, i, s);
            && n.id !in n.peers
            && (n.state == Leader ==> forall p | p in n.peers :: Lookup(n.matchIndex, p) < |n.log|)
  {
    NodeAtOk(run, i, s);
    var n := NodeAt(run, i, s);
    if n.state == Leader {
      forall p | p in n.peers ensures Lookup(n.matchIndex, p) < |n.log| {
        IndexesInRange(run, i, s, p);
      }
    }
  }

  // ---------- the apply stream ----------

  // After a wake-up everything that is committed is on the stream: the commands of the log up to the
  // commit index, in order, each once.
  lemma WakeUpEmitsAll(run: Run, i: nat, s: int)
    requires run.ValidAndGuarded() && i < |run.steps| && run.steps[i] == EmitCommits(s) && Within(run, i, s)
    ensures Within(run, i + 1, s)
    ensures var n, n', stream := NodeAt(run, i, s), NodeAt(run, i + 1, s), StreamAt(run, i + 1, s);
            && n'.log == n.log && n'.commitIndex == n.commitIndex == n'.lastApplied
            && |stream| == n.commitIndex + 1 <= |n.log|
            && forall k | 0 <= k < |stream| :: stream[k].command == n.log[k].command && stream[k].index == k
  {
    assert run.StepAt(i);
    CommitAt(run, i, s);
    RunStepPrecedes(run, i);
    NodeAtOk(run, i + 1, s);
  }

  // ---------- stepping down and starting over ----------

  // A reply of a later term makes any server a follower of that term without a vote.
  lemma LaterReplyStepsDown(n: Node, f: int, req: AppendEntriesRequest, resp: AppendEntriesResponse)
    requires resp.term > n.currentTerm
    ensures var n' := HandleAppendReply(n, f, req, resp);
            && n'.state == Follower && n'.currentTerm == resp.term && n'.votedFor == -1
            && n'.log == n.log && n'.commitIndex == n.commitIndex && n'.lastApplied == n.lastApplied
  {
  }

  // So does, for a candidate, a reply to a vote request whose term is beyond that of the election; a
  // follower ignores every such reply, and a candidate every one that grants nothing in its term.
  lemma LaterVoteReplyStepsDown(n: Node, voter: int, race: nat, resp: RequestVoteResponse)
    requires race < |n.races|
    ensures var n' := HandleVoteReply(n, voter, race, resp);
            && (n.state == Candidate && resp.term > n.races[race].term ==>
                  n' == n.(state := Follower, currentTerm := resp.term, votedFor := -1))
            && (n.state == Follower ==> n' == n)
            && (n.state == Candidate && resp.term < n.races[race].term ==> n' == n)
            && (n.state == Candidate && resp.term == n.races[race].term && !resp.voteGranted ==> n' == n)
  {
  }

  // A timeout takes a server into the next term, as a candidate with its own vote.
  lemma TimeoutStartsElection(n: Node)
    ensures var n' := StartElection(n);
            && n'.state == Candidate && n'.currentTerm == n.currentTerm + 1 && n'.votedFor == n.id
            && n'.races == n.races + [Race(n'.currentTerm, {n.id})] && n'.starting == n.starting
            && n'.log == n.log && n'.commitIndex == n.commitIndex && n'.lastApplied == n.lastApplied
  {
  }

  // A rejection sends the leader back to the entry after the last one of the conflict term, if it has
  // any, and to the conflict index otherwise; it touches nothing else.
  lemma RejectionGoesBack(n: Node, f: int, req: AppendEntriesRequest, resp: AppendEntriesResponse)
    requires n.state == Leader && !resp.success && req.term == resp.term <= n.currentTerm
    ensures var n' := HandleAppendReply(n, f, req, resp);
            var ni := Lookup(n'.nextIndex, f);
            && n' == n.(nextIndex := n.nextIndex[f := ni])
            && ((exists i :: 0 <= i < |n.log| && n.log[i].term == resp.conflictTerm) && resp.conflictTerm >= 0 ==>
                  && 0 < ni <= |n.log| && n.log[ni - 1].term == resp.conflictTerm
                  && forall i | ni <= i < |n.log| :: n.log[i].term != resp.conflictTerm)
            && ((forall i | 0 <= i < |n.log| :: n.log[i].term != resp.conflictTerm) || resp.conflictTerm < 0 ==>
                  ni == resp.conflictIndex)
  {
    LastIndexIs(n.log, |n.log|, resp.conflictTerm);
  }

  lemma {:induction false} LastIndexIs(log: Log, top: nat, term: int)
    requires top <= |log|
    ensures var l := LastIndexOfTerm(log, top, term);
            && -1 <= l < top
            && (l >= 0 ==> log[l].term == term)
            && forall i | l < i < top :: log[i].term != term
  {
    if top > 0 && log[top - 1].term != term { LastIndexIs(log, top - 1, term); }
  }

  // A new leader, and a sitting one on every late vote reply, takes its peers to have nothing and
  // starts them at the end of its log.
  ghost predicate StartsOver(n: Node, n': Node) {
    && n'.state == Leader && n'.log == n.log && n'.currentTerm == n.currentTerm && n'.votedFor == n.votedFor
    && n'.commitIndex == n.commitIndex && n'.lastApplied == n.lastApplied
    && forall p | p in n.peers :: Lookup(n'.nextIndex, p) == |n.log| && Lookup(n'.matchIndex, p) == -1
  }

  lemma LeadersStartOver(n: Node, voter: int, race: nat, resp: RequestVoteResponse)
    ensures StartsOver(n, RunStart(n, race)) && RunStart(n, race).starting == n.starting - multiset{race}
    ensures race < |n.races| && n.state == Leader ==> StartsOver(n, HandleVoteReply(n, voter, race, resp))
  {
  }

  // A vote that is counted spawns a start of leadership exactly if the voters counted for the race,
  // this one among them, are a majority of the servers.
  lemma VoteSpawnsIff(n: Node, voter: int, race: nat)
    requires race < |n.races| && n.state == Candidate
    ensures var n' := HandleVoteReply(n, voter, race, RequestVoteResponse(n.races[race].term, true));
            && n'.state == Candidate && n'.currentTerm == n.currentTerm && n'.log == n.log
            && n'.races[race].voters == n.races[race].voters + {voter}
            && (n'.starting != n.starting <==> 2 * |n.races[race].voters + {voter}| > |n.peers| + 1)
            && (n'.starting != n.starting ==> n'.starting == n.starting + multiset{race})
  {
    assert (n.starting + multiset{race})[race] == n.starting[race] + 1;
  }

  // A request carries everything from the peer's next index on, the entry before it, and the leader's
  // commit index.
  lemma BuiltFields(n: Node, dst: int, term: int)
    requires 0 <= Lookup(n.nextIndex, dst) <= |n.log|
    ensures var req := BuildAppendRequest(n, dst, term);
            && req.term == term && req.leaderId == n.id && req.leaderCommit == n.commitIndex
            && req.prevLogIndex + 1 == Lookup(n.nextIndex, dst) && |req.entries| == |n.log| - Lookup(n.nextIndex, dst)
            && (forall k | 0 <= k < |req.entries| :: req.entries[k] == n.log[Lookup(n.nextIndex, dst) + k])
            && req.prevLogTerm == (if req.prevLogIndex >= 0 then n.log[req.prevLogIndex].term else -1)
  {
  }
}
