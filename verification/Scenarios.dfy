/**
 Runs of a cluster of five servers, built one step at a time.
 */
module Scenarios {
  import opened Chat
  import opened Logs
  import opened Consensus
  import opened Protocol

  function Last(run: Run): Global
    requires |run.states| > 0
  {
    run.states[|run.states| - 1]
  }

  // Every step of the run but the k-th makes its check.
  ghost predicate ChecksBut(run: Run, k: int)
    requires run.Valid()
  {
    forall i: nat | i < |run.steps| && i != k :: run.StepAt(i) && run.GuardedAt(i)
  }

  // g ends a run of which at most step k fails a check; none does if k is -1.
  ghost predicate Reached(k: int, g: Global) {
    exists run: Run :: run.Valid() && ChecksBut(run, k) && Last(run) == g
  }

  lemma NoneSkipped(g: Global)
    ensures Reached(-1, g) <==> exists run: Run :: run.ValidAndGuarded() && Last(run) == g
  {
    if Reached(-1, g) {
      var run: Run :| run.Valid() && ChecksBut(run, -1) && Last(run) == g;
      assert run.ValidAndGuarded();
    } else if exists run: Run :: run.ValidAndGuarded() && Last(run) == g {
      var run: Run :| run.ValidAndGuarded() && Last(run) == g;
      forall i: nat | i < |run.steps| ensures run.StepAt(i) && run.GuardedAt(i) {
        assert run.StepAt(i);
      }
      assert ChecksBut(run, -1);
    }
  }

  lemma SameStep(run: Run, longer: Run, i: nat)
    requires i < |run.steps| && |run.states| == |run.steps| + 1 && run.StepAt(i)
    requires i < |longer.steps| && |longer.states| == |longer.steps| + 1
    requires longer.steps[i] == run.steps[i]
    requires longer.states[i] == run.states[i] && longer.states[i + 1] == run.states[i + 1]
    ensures longer.StepAt(i) && (run.GuardedAt(i) ==> longer.GuardedAt(i))
  {
  }

  lemma ExtendRun(k: int, run: Run, step: Step) returns (longer: Run)
    requires run.Valid() && ChecksBut(run, k) && Enabled(Last(run), step)
    requires |run.steps| != k ==> Guarded(Last(run), step)
    ensures longer.Valid() && ChecksBut(longer, k) && Last(longer) == Next(Last(run), step)
  {
    longer := Run(run.states + [Next(Last(run), step)], run.steps + [step]);
    forall i: nat | i < |longer.steps| ensures longer.StepAt(i) && (i != k ==> longer.GuardedAt(i)) {
      if i < |run.steps| {
        assert run.StepAt(i);
        SameStep(run, longer, i);
      }
    }
  }

  lemma ReachNext(k: int, g: Global, step: Step)
    requires Reached(k, g) && Enabled(g, step) && Guarded(g, step)
    ensures Reached(k, Next(g, step))
  {
    var run: Run :| run.Valid() && ChecksBut(run, k) && Last(run) == g;
    var longer := ExtendRun(k, run, step);
  }

  // A run that made every check may skip one now.
  lemma ReachSkipping(g: Global, step: Step) returns (k: int)
    requires Reached(-1, g) && Enabled(g, step)
    ensures k >= 0 && Reached(k, Next(g, step))
  {
    var run: Run :| run.Valid() && ChecksBut(run, -1) && Last(run) == g;
    k := |run.steps|;
    forall i: nat | i < |run.steps| && i != k ensures run.StepAt(i) && run.GuardedAt(i) {}
    var longer := ExtendRun(k, run, step);
  }

  const FIVE := {1, 2, 3, 4, 5}

  function Fresh(s: int): Node { Consensus.Init(s, FIVE - {s}) }

  function Start(): Global {
    Global(map s | s in FIVE :: Fresh(s), map s | s in FIVE :: App([], 0, map[]), {},
           History(FIVE, map[], map[], map[], map[], {}, map[]))
  }

  ghost predicate Cluster(k: int, g: Global) {
    Reached(k, g) && g.nodes.Keys == FIVE && g.apps.Keys == FIVE
  }

  lemma StartIsReached()
    ensures Cluster(-1, Start())
  {
    var run := Run([Start()], []);
    assert run.Valid() && ChecksBut(run, -1) && Last(run) == Start();
  }

  // What the following lemmas carry from one state to the next.
  ghost predicate Onward(k: int, g: Global, g': Global) {
    Cluster(k, g') && g.net <= g'.net && g'.apps == g.apps
  }

  lemma TimeoutReached(k: int, g: Global, s: int) returns (g': Global)
    requires Cluster(k, g) && s in FIVE && g.nodes[s].state != Leader
    ensures Onward(k, g, g') && g'.nodes == g.nodes[s := StartElection(g.nodes[s])]
  {
    ReachNext(k, g, Timeout(s));
    g' := AfterTimeout(g, s);
  }

  // Server s asks dst for its vote in one of its races, and dst answers.
  lemma AskReached(k: int, g: Global, s: int, dst: int, race: nat) returns (g': Global, req: RequestVoteRequest)
    requires Cluster(k, g) && s in FIVE && dst in FIVE && dst in g.nodes[s].peers && race < |g.nodes[s].races|
    ensures req == BuildVoteRequest(g.nodes[s], g.nodes[s].races[race].term)
    ensures Onward(k, g, g') && g'.nodes == g.nodes[dst := HandleRequestVote(g.nodes[dst], req).0]
    ensures VoteReturn(dst, race, req, HandleRequestVote(g.nodes[dst], req).1) in g'.net
  {
    req := BuildVoteRequest(g.nodes[s], g.nodes[s].races[race].term);
    ReachNext(k, g, SendVoteRequest(s, dst, race));
    var m := Move(g, s, g.nodes[s], {VoteCall(dst, race, req)}, g.hist);
    assert m.nodes == g.nodes;
    ReachNext(k, m, ReceiveVoteRequest(dst, race, req));
    g' := AfterVoteRequest(m, dst, race, req);
  }

  function Voted(n: Node, term: int, s: int): Node { BecomeFollower(n, term).(votedFor := s) }

  predicate WillVoteFor(voter: Node, term: int, log: Log) {
    voter.currentTerm < term && UpToDate(LastLogIndex(log), LastLogTerm(log), voter.log)
  }

  // Server s asks a server that has not reached the term of its race, and gets its vote.
  lemma VoteReached(k: int, g: Global, s: int, p: int, race: nat) returns (g': Global, req: RequestVoteRequest)
    requires Cluster(k, g) && s in FIVE && p in FIVE && p in g.nodes[s].peers && race < |g.nodes[s].races|
    requires WillVoteFor(g.nodes[p], g.nodes[s].races[race].term, g.nodes[s].log) && g.nodes[s].id == s
    ensures Onward(k, g, g') && g'.nodes == g.nodes[p := Voted(g.nodes[p], g.nodes[s].races[race].term, s)]
    ensures req.candidateId == s
    ensures VoteReturn(p, race, req, RequestVoteResponse(g.nodes[s].races[race].term, true)) in g'.net
  {
    g', req := AskReached(k, g, s, p, race);
  }

  lemma CountReached(k: int, g: Global, s: int, v: int, race: nat, req: RequestVoteRequest) returns (g': Global)
    requires Cluster(k, g) && s in FIVE && req.candidateId == s && race < |g.nodes[s].races|
    requires VoteReturn(v, race, req, RequestVoteResponse(g.nodes[s].races[race].term, true)) in g.net
    requires g.nodes[s].state == Candidate
    ensures Onward(k, g, g') && g'.nodes == g.nodes[s := CountAndSpawn(g.nodes[s], race, v)]
  {
    var resp := RequestVoteResponse(g.nodes[s].races[race].term, true);
    ReachNext(k, g, ReceiveVoteReply(s, v, race, req, resp));
    g' := AfterVoteReply(g, s, v, race, resp);
  }

  // A candidate that has counted the votes of p and q, so that its start of leadership is due.
  function Won(n: Node, p: int, q: int): Node {
    n.(state := Candidate, currentTerm := n.currentTerm + 1, votedFor := n.id,
       races := n.races + [Race(n.currentTerm + 1, {n.id, p, q})],
       starting := n.starting + multiset{|n.races|})
  }

  lemma TwoVotesWin(n: Node, p: int, q: int)
    requires |n.peers| == 4 && n.id != p && n.id != q && p != q
    ensures var race := |n.races|;
            CountAndSpawn(CountAndSpawn(StartElection(n), race, p), race, q) == Won(n, p, q)
    ensures CountAndSpawn(StartElection(n), |n.races|, p).state == Candidate
    ensures var n1 := CountAndSpawn(StartElection(n), |n.races|, p);
            |n1.races| == |n.races| + 1 && n1.races[|n.races|].term == n.currentTerm + 1
  {
    assert |{n.id} + {p}| == 2 && |{n.id} + {p} + {q}| == 3 && {n.id} + {p} + {q} == {n.id, p, q};
  }

  // A candidate asks p and q, which have not reached its term.
  lemma TwoVotesReached(k: int, g: Global, s: int, p: int, q: int, race: nat)
    returns (g': Global, rp: RequestVoteRequest, rq: RequestVoteRequest)
    requires Cluster(k, g) && s in FIVE && p in FIVE && q in FIVE && s != p && s != q && p != q
    requires g.nodes[s].id == s && p in g.nodes[s].peers && q in g.nodes[s].peers && race < |g.nodes[s].races|
    requires WillVoteFor(g.nodes[p], g.nodes[s].races[race].term, g.nodes[s].log)
    requires WillVoteFor(g.nodes[q], g.nodes[s].races[race].term, g.nodes[s].log)
    ensures var term := g.nodes[s].races[race].term;
            && Onward(k, g, g')
            && g'.nodes == g.nodes[p := Voted(g.nodes[p], term, s)][q := Voted(g.nodes[q], term, s)]
            && rp.candidateId == s && rq.candidateId == s
            && VoteReturn(p, race, rp, RequestVoteResponse(term, true)) in g'.net
            && VoteReturn(q, race, rq, RequestVoteResponse(term, true)) in g'.net
  {
    g', rp := VoteReached(k, g, s, p, race);
    g', rq := VoteReached(k, g', s, q, race);
  }

  // A candidate counts the votes of p and q.
  lemma TwoCountsReached(k: int, g: Global, s: int, p: int, q: int, n: Node,
                         rp: RequestVoteRequest, rq: RequestVoteRequest)
    returns (g': Global)
    requires Cluster(k, g) && s in FIVE && g.nodes[s] == StartElection(n)
    requires |n.peers| == 4 && n.id != p && n.id != q && p != q && rp.candidateId == s && rq.candidateId == s
    requires VoteReturn(p, |n.races|, rp, RequestVoteResponse(n.currentTerm + 1, true)) in g.net
    requires VoteReturn(q, |n.races|, rq, RequestVoteResponse(n.currentTerm + 1, true)) in g.net
    ensures Onward(k, g, g') && g'.nodes == g.nodes[s := Won(n, p, q)]
  {
    TwoVotesWin(n, p, q);
    g' := CountReached(k, g, s, p, |n.races|, rp);
    assert g'.nodes[s] == CountAndSpawn(StartElection(n), |n.races|, p);
    g' := CountReached(k, g', s, q, |n.races|, rq);
  }

  // Server s starts an election and counts the votes of p and q.
  lemma WonReached(k: int, g: Global, s: int, p: int, q: int) returns (g': Global)
    requires Cluster(k, g) && s in FIVE && p in FIVE && q in FIVE && s != p && s != q && p != q
    requires var n := g.nodes[s];
             && n.state != Leader && n.id == s && p in n.peers && q in n.peers && |n.peers| == 4
             && WillVoteFor(g.nodes[p], n.currentTerm + 1, n.log) && WillVoteFor(g.nodes[q], n.currentTerm + 1, n.log)
    ensures var n := g.nodes[s];
            && Onward(k, g, g')
            && g'.nodes == g.nodes[p := Voted(g.nodes[p], n.currentTerm + 1, s)]
                                  [q := Voted(g.nodes[q], n.currentTerm + 1, s)][s := Won(n, p, q)]
  {
    var n, race := g.nodes[s], |g.nodes[s].races|;
    var g1 := TimeoutReached(k, g, s);
    assert g1.nodes[p] == g.nodes[p] && g1.nodes[q] == g.nodes[q] && g1.nodes[s] == StartElection(n);
    var g2, rp, rq := TwoVotesReached(k, g1, s, p, q, race);
    assert g2.nodes[s] == StartElection(n);
    g' := TwoCountsReached(k, g2, s, p, q, n, rp, rq);
    Overwritten(g.nodes, s, StartElection(n), p, Voted(g.nodes[p], n.currentTerm + 1, s),
                q, Voted(g.nodes[q], n.currentTerm + 1, s), Won(n, p, q));
  }

  lemma Overwritten(m: map<int, Node>, s: int, a: Node, p: int, b: Node, q: int, c: Node, d: Node)
    requires s != p && s != q
    ensures m[s := a][p := b][q := c][s := d] == m[p := b][q := c][s := d]
  {
  }

  lemma StartReached(k: int, g: Global, s: int, race: nat) returns (g': Global)
    requires Cluster(k, g) && s in FIVE && race in g.nodes[s].starting && MayStart(g.nodes[s])
    ensures Onward(k, g, g') && g'.nodes == g.nodes[s := RunStart(g.nodes[s], race)]
  {
    ReachNext(k, g, StartLeading(s, race));
    g' := AfterStart(g, s, race);
  }

  // The leader that n becomes with the votes of p and q.
  function Leading(n: Node, p: int, q: int): Node { RunStart(Won(n, p, q), |n.races|) }

  // Server s starts an election, wins it with the votes of p and q, and leads.
  lemma LeadReached(k: int, g: Global, s: int, p: int, q: int) returns (g': Global)
    requires Cluster(k, g) && s in FIVE && p in FIVE && q in FIVE && s != p && s != q && p != q
    requires var n := g.nodes[s];
             && n.state != Leader && n.id == s && n.peers == FIVE - {s}
             && WillVoteFor(g.nodes[p], n.currentTerm + 1, n.log) && WillVoteFor(g.nodes[q], n.currentTerm + 1, n.log)
    ensures Onward(k, g, g') && g'.nodes[s] == Leading(g.nodes[s], p, q)
    ensures g'.nodes[p] == Voted(g.nodes[p], g.nodes[s].currentTerm + 1, s)
    ensures g'.nodes[q] == Voted(g.nodes[q], g.nodes[s].currentTerm + 1, s)
    ensures forall o | o in FIVE && o != s && o != p && o != q :: g'.nodes[o] == g.nodes[o]
  {
    FivePeers(s);
    var n := g.nodes[s];
    var g1 := WonReached(k, g, s, p, q);
    assert g1.nodes[s] == Won(n, p, q);
    g' := StartReached(k, g1, s, |n.races|);
  }

  // The leader that n becomes when it takes a command and begins a round of requests.
  function Serving(n: Node, command: Command): Node {
    BeginRound(n.(log := n.log + [LogEntry(command, n.currentTerm)]))
  }

  lemma ServeReached(k: int, g: Global, s: int, command: Command) returns (g': Global)
    requires Cluster(k, g) && s in FIVE && g.nodes[s].state == Leader
    ensures Onward(k, g, g') && g'.nodes == g.nodes[s := Serving(g.nodes[s], command)]
  {
    g' := SubmitReached(k, g, s, command);
    g' := RoundReached(k, g', s);
  }

  lemma FivePeers(s: int)
    requires s in FIVE
    ensures |FIVE - {s}| == 4
  {
  }

  // ---------- requests ----------

  lemma SubmitReached(k: int, g: Global, s: int, command: Command) returns (g': Global)
    requires Cluster(k, g) && s in FIVE && g.nodes[s].state == Leader
    ensures Onward(k, g, g') && g'.nodes == g.nodes[s := Consensus.Submit(g.nodes[s], command)]
  {
    ReachNext(k, g, ClientSubmit(s, command));
    g' := AfterSubmit(g, s, command);
  }

  lemma RoundReached(k: int, g: Global, s: int) returns (g': Global)
    requires Cluster(k, g) && s in FIVE && g.nodes[s].state == Leader
    ensures Onward(k, g, g') && g'.nodes == g.nodes[s := BeginRound(g.nodes[s])]
  {
    ReachNext(k, g, StartRound(s));
    g' := Move(g, s, BeginRound(g.nodes[s]), {}, g.hist);
  }

  lemma ReceiveReached(k: int, g: Global, d: int, req: AppendEntriesRequest) returns (g': Global)
    requires Cluster(k, g) && d in FIVE && AppendCall(d, req) in g.net
    ensures Onward(k, g, g') && g'.nodes == g.nodes[d := HandleAppendEntries(g.nodes[d], req).0]
    ensures AppendReturn(d, req, HandleAppendEntries(g.nodes[d], req).1) in g'.net
  {
    ReachNext(k, g, ReceiveAppend(d, req));
    g' := AfterAppend(g, d, req);
  }

  lemma AppendReplyReached(k: int, g: Global, s: int, f: int, req: AppendEntriesRequest, resp: AppendEntriesResponse)
    returns (g': Global)
    requires Cluster(k, g) && s in FIVE && AppendReturn(f, req, resp) in g.net && req.leaderId == s
    requires CountsOwnTerm(g.nodes[s], req, resp)
    ensures Onward(k, g, g') && g'.nodes == g.nodes[s := HandleAppendReply(g.nodes[s], f, req, resp)]
  {
    ReachNext(k, g, ReceiveAppendReply(s, f, req, resp));
    g' := AfterAppendReply(g, s, f, req, resp);
  }

  lemma EmitReached(k: int, g: Global, s: int) returns (g': Global)
    requires Cluster(k, g) && s in FIVE
    requires 0 <= g.nodes[s].lastApplied + 1 && g.nodes[s].commitIndex < |g.nodes[s].log|
    ensures Cluster(k, g') && g'.net == g.net && g'.nodes == g.nodes[s := SendCommits(g.nodes[s])]
    ensures g'.apps == g.apps[s := g.apps[s].(emitted := g.apps[s].emitted + NewlyCommitted(g.nodes[s]))]
  {
    ReachNext(k, g, EmitCommits(s));
    g' := AfterEmit(g, s);
  }

  // Leader s, which has begun a round in its term, sends its entries to d, and d answers.
  lemma ReplicateReached(k: int, g: Global, s: int, d: int) returns (g': Global)
    requires Cluster(k, g) && s in FIVE && d in FIVE && g.nodes[s].state == Leader && d in g.nodes[s].peers
    requires g.nodes[s].currentTerm in g.nodes[s].rounds && 0 <= Lookup(g.nodes[s].nextIndex, d) <= |g.nodes[s].log|
    ensures var req := BuildAppendRequest(g.nodes[s], d, g.nodes[s].currentTerm);
            && Onward(k, g, g') && g'.nodes == g.nodes[d := HandleAppendEntries(g.nodes[d], req).0]
            && AppendCall(d, req) in g'.net && AppendReturn(d, req, HandleAppendEntries(g.nodes[d], req).1) in g'.net
  {
    var n := g.nodes[s];
    var req := BuildAppendRequest(n, d, n.currentTerm);
    ReachNext(k, g, Step.SendAppend(s, d, n.currentTerm));
    var m := Move(g, s, n, {AppendCall(d, req)}, g.hist);
    assert m.nodes == g.nodes;
    g' := ReceiveReached(k, m, d, req);
  }
}
