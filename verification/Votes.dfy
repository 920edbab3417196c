/**
 Who gets a vote, in terms of the logs alone, and why a majority can always elect one of its members.
 */
module Votes {
  import opened Sets
  import opened Logs
  import opened Consensus
  import opened Protocol
  import opened Theorems

  // The request of a candidate with the given log.
  function RequestFor(log: Log, term: int, candidate: int): RequestVoteRequest {
    RequestVoteRequest(term, candidate, |log| - 1, if log == [] then -1 else log[|log| - 1].term)
  }

  // The server has not voted for anybody else in the term, and is not beyond it.
  predicate MayVoteFor(n: Node, term: int, candidate: int) {
    n.currentTerm < term || (n.currentTerm == term && (n.votedFor == -1 || n.votedFor == candidate))
  }

  // `log` is not behind `mine`: it ends in a later term, or in the same one and is no shorter.
  predicate NotBehind(mine: Log, log: Log) {
    mine == [] ||
    (log != [] &&
     (log[|log| - 1].term > mine[|mine| - 1].term ||
      (log[|log| - 1].term == mine[|mine| - 1].term && |log| >= |mine|)))
  }

  ghost predicate Positive(log: Log) { forall i | 0 <= i < |log| :: log[i].term >= 1 }

  ghost predicate Ordered(log: Log) { forall i, j | 0 <= i < j < |log| :: log[i].term <= log[j].term }

  // A vote is granted exactly if the voter is free to vote for the candidate and the candidate's log
  // is not behind its own. Either way the reply carries the greater of the two terms, which is then
  // the voter's.
  lemma VoteGrantedIff(n: Node, log: Log, term: int, candidate: int)
    requires Positive(n.log) && Positive(log)
    ensures var (n', resp) := HandleRequestVote(n, RequestFor(log, term, candidate));
            && (resp.voteGranted <==> MayVoteFor(n, term, candidate) && NotBehind(n.log, log))
            && resp.term == n'.currentTerm == (if term > n.currentTerm then term else n.currentTerm)
            && (resp.voteGranted ==> n'.votedFor == candidate)
            && n'.log == n.log && n'.commitIndex == n.commitIndex && n'.lastApplied == n.lastApplied
            && (term > n.currentTerm ==> n'.state == Follower)
  {
  }

  // A candidate that has everything the voter has gets the vote.
  lemma PrefixGetsVote(n: Node, log: Log, term: int, candidate: int)
    requires n.log <= log && Positive(log) && Ordered(log) && MayVoteFor(n, term, candidate)
    ensures HandleRequestVote(n, RequestFor(log, term, candidate)).1 == RequestVoteResponse(term, true)
  {
    assert Positive(n.log);
    PrefixNotBehind(n.log, log);
    VoteGrantedIff(n, log, term, candidate);
  }

  lemma PrefixNotBehind(mine: Log, log: Log)
    requires mine <= log && Ordered(log)
    ensures NotBehind(mine, log)
  {
    if mine != [] {
      assert mine[|mine| - 1] == log[|mine| - 1];
    }
  }

  // Of any two logs at least one is not behind the other, so that of any two servers at least one
  // gets the vote of the other in a term that is new to both.
  lemma OneOfTwoGetsVote(a: Node, b: Node, term: int)
    requires Positive(a.log) && Positive(b.log) && a.currentTerm < term && b.currentTerm < term
    ensures HandleRequestVote(b, RequestFor(a.log, term, a.id)).1.voteGranted ||
            HandleRequestVote(a, RequestFor(b.log, term, b.id)).1.voteGranted
  {
    VoteGrantedIff(b, a.log, term, a.id);
    VoteGrantedIff(a, b.log, term, b.id);
  }

  lemma NotBehindTransitive(a: Log, b: Log, c: Log)
    requires NotBehind(a, b) && NotBehind(b, c)
    ensures NotBehind(a, c)
  {
  }

  // Some server of a set has a log that is behind no other.
  lemma {:induction false} BestOf(nodes: map<int, Node>, q: set<int>, s: int) returns (best: int)
    requires s in q && q <= nodes.Keys
    ensures best in q && forall t | t in q :: NotBehind(nodes[t].log, nodes[best].log)
    decreases |q|
  {
    var rest := q - {s};
    if |rest| > 0 {
      var r := Pick(rest);
      var b := BestOf(nodes, rest, r);
      best := if NotBehind(nodes[b].log, nodes[s].log) then s else b;
      forall t | t in q ensures NotBehind(nodes[t].log, nodes[best].log) {
        if t != s && best == s {
          NotBehindTransitive(nodes[t].log, nodes[b].log, nodes[s].log);
        }
      }
    } else {
      best := s;
      assert q == {s} + rest;
    }
  }

  // Voter s grants `best` its vote in any term that is new to it.
  ghost predicate AlwaysVotesFor(voter: Node, best: Node) {
    forall term | voter.currentTerm < term ::
      HandleRequestVote(voter, RequestFor(best.log, term, best.id)).1 == RequestVoteResponse(term, true)
  }

  // In every state of a checked run some server of any set of servers, in particular of any majority,
  // gets the votes of all the others in any term that is new to them.
  lemma SomeoneGetsAllVotes(run: Run, i: nat, q: set<int>, s: int) returns (best: int)
    requires run.ValidAndGuarded() && i < |run.states| && s in q
    requires q <= run.states[i].nodes.Keys && q <= run.states[i].apps.Keys
    ensures best in q
    ensures forall s | s in q :: AlwaysVotesFor(run.states[i].nodes[s], run.states[i].nodes[best])
  {
    var nodes := run.states[i].nodes;
    best := BestOf(nodes, q, s);
    PositiveLog(run, i, best);
    forall s | s in q ensures AlwaysVotesFor(nodes[s], nodes[best]) {
      PositiveLog(run, i, s);
      VotesForBest(nodes[s], nodes[best]);
    }
  }

  lemma VotesForBest(voter: Node, best: Node)
    requires Positive(voter.log) && Positive(best.log) && NotBehind(voter.log, best.log)
    ensures AlwaysVotesFor(voter, best)
  {
    forall term | voter.currentTerm < term
      ensures HandleRequestVote(voter, RequestFor(best.log, term, best.id)).1 == RequestVoteResponse(term, true)
    {
      VoteGrantedIff(voter, best.log, term, best.id);
    }
  }

  lemma PositiveLog(run: Run, i: nat, s: int)
    requires run.ValidAndGuarded() && Within(run, i, s)
    ensures Positive(NodeAt(run, i, s).log) && Ordered(NodeAt(run, i, s).log)
  {
    NodeAtOk(run, i, s);
  }

  // The request that a candidate builds is the one for its log.
  lemma BuiltForItsLog(n: Node, term: int)
    ensures BuildVoteRequest(n, term) == RequestFor(n.log, term, n.id)
  {
  }
}
