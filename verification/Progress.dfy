/**
 No checked run is ever stuck: from whatever state it has reached, the servers of any majority can go
 on, checked step by checked step, to elect one of them, and to commit and apply a new command.
 */
module Progress {
  import opened Chat
  import opened Sets
  import opened Logs
  import opened Consensus
  import opened Protocol
  import opened Invariants
  import opened Replication
  import opened Safety
  import opened Theorems
  import opened Votes
  import opened Outcomes

  // ---------- going on from a state ----------

  ghost predicate Path(run: Run) {
    && |run.states| == |run.steps| + 1
    && forall i: nat | i < |run.steps| :: run.StepAt(i) && run.GuardedAt(i)
  }

  // g ends a checked run.
  ghost predicate Live(g: Global) {
    exists run: Run :: run.ValidAndGuarded() && run.states[|run.steps|] == g
  }

  // Checked steps lead from g0 to g.
  ghost predicate Leads(g0: Global, g: Global) {
    exists run: Run :: Path(run) && run.states[0] == g0 && run.states[|run.steps|] == g
  }

  ghost predicate From(g0: Global, g: Global) { Live(g) && Leads(g0, g) }

  lemma FromItself(g: Global)
    requires Live(g)
    ensures From(g, g)
  {
    var run := Run([g], []);
    assert Path(run);
  }

  lemma SameStep(run: Run, longer: Run, i: nat)
    requires i < |run.steps| && |run.states| == |run.steps| + 1 && run.StepAt(i) && run.GuardedAt(i)
    requires i < |longer.steps| && |longer.states| == |longer.steps| + 1
    requires longer.steps[i] == run.steps[i]
    requires longer.states[i] == run.states[i] && longer.states[i + 1] == run.states[i + 1]
    ensures longer.StepAt(i) && longer.GuardedAt(i)
  {
  }

  lemma LongerPath(run: Run, step: Step) returns (longer: Run)
    requires Path(run) && Enabled(run.states[|run.steps|], step) && Guarded(run.states[|run.steps|], step)
    ensures Path(longer) && longer.states[0] == run.states[0]
    ensures longer.states[|longer.steps|] == Next(run.states[|run.steps|], step)
  {
    longer := Run(run.states + [Next(run.states[|run.steps|], step)], run.steps + [step]);
    forall i: nat | i < |longer.steps| ensures longer.StepAt(i) && longer.GuardedAt(i) {
      if i < |run.steps| { SameStep(run, longer, i); }
    }
  }

  lemma PathIsChecked(run: Run)
    requires Path(run) && Initial(run.states[0])
    ensures run.ValidAndGuarded()
  {
  }

  lemma CheckedIsPath(run: Run)
    requires run.ValidAndGuarded()
    ensures Path(run)
  {
    forall i: nat | i < |run.steps| ensures run.StepAt(i) && run.GuardedAt(i) {
      assert run.StepAt(i);
    }
  }

  lemma Go(g0: Global, g: Global, step: Step)
    requires From(g0, g) && Enabled(g, step) && Guarded(g, step)
    ensures From(g0, Next(g, step))
  {
    var run: Run :| run.ValidAndGuarded() && run.states[|run.steps|] == g;
    CheckedIsPath(run);
    var longer := LongerPath(run, step);
    PathIsChecked(longer);
    var path: Run :| Path(path) && path.states[0] == g0 && path.states[|path.steps|] == g;
    var longer' := LongerPath(path, step);
  }

  lemma LiveInv(g: Global)
    requires Live(g)
    ensures Inv(g)
  {
    var run: Run :| run.ValidAndGuarded() && run.states[|run.steps|] == g;
    RunInv(run, |run.steps|);
  }

  lemma LiveNode(g: Global, s: int)
    requires Live(g) && s in g.nodes
    ensures NodeOk(g.hist, s, g.nodes[s]) && g.nodes.Keys == g.hist.servers
  {
    LiveInv(g);
  }

  lemma LiveMsg(g: Global, m: Msg)
    requires Live(g) && m in g.net
    ensures HistOk(g.hist) && MsgOk(g.hist, m)
  {
    LiveInv(g);
  }

  lemma LiveHist(g: Global)
    requires Live(g)
    ensures HistOk(g.hist)
  {
    LiveInv(g);
  }

  // The servers are there, under their names.
  ghost predicate Servers(g: Global, all: set<int>) {
    && g.nodes.Keys == all && g.apps.Keys == all
    && forall s | s in all :: g.nodes[s].id == s && g.nodes[s].peers == all - {s}
  }

  lemma LiveServers(g: Global)
    requires Live(g)
    ensures Servers(g, g.hist.servers)
  {
    LiveInv(g);
    forall s | s in g.hist.servers ensures g.nodes[s].id == s && g.nodes[s].peers == g.hist.servers - {s} {
      assert NodeOk(g.hist, s, g.nodes[s]);
    }
  }

  // The state of one server changes, or of two.
  ghost predicate Only(g: Global, g': Global, s: int) {
    g'.nodes.Keys == g.nodes.Keys && g.net <= g'.net && forall o | o in g.nodes && o != s :: g'.nodes[o] == g.nodes[o]
  }

  ghost predicate OnlyTwo(g: Global, g': Global, s: int, t: int) {
    && g'.nodes.Keys == g.nodes.Keys && g.net <= g'.net
    && forall o | o in g.nodes && o != s && o != t :: g'.nodes[o] == g.nodes[o]
  }

  // Where the lemmas below go on: a state of all the servers, reached from g0.
  ghost predicate At(g0: Global, g: Global, all: set<int>) { From(g0, g) && Servers(g, all) }

  lemma Arrived(g0: Global, g: Global, g': Global, all: set<int>)
    requires At(g0, g, all) && From(g0, g') && g'.nodes.Keys == g.nodes.Keys
    ensures At(g0, g', all)
  {
    LiveServers(g');
  }

  lemma TimeoutGo(g0: Global, g: Global, all: set<int>, s: int) returns (g': Global)
    requires At(g0, g, all) && s in all && g.nodes[s].state != Leader
    ensures At(g0, g', all) && Only(g, g', s) && g'.nodes[s] == StartElection(g.nodes[s])
  {
    Go(g0, g, Timeout(s));
    g' := AfterTimeout(g, s);
    Arrived(g0, g, g', all);
  }

  lemma AskGo(g0: Global, g: Global, all: set<int>, s: int, v: int, race: nat)
    returns (g': Global, req: RequestVoteRequest)
    requires At(g0, g, all) && s in all && v in all && s != v && race < |g.nodes[s].races|
    ensures req == RequestFor(g.nodes[s].log, g.nodes[s].races[race].term, s)
    ensures At(g0, g', all) && Only(g, g', v) && g'.nodes[v] == HandleRequestVote(g.nodes[v], req).0
    ensures VoteReturn(v, race, req, HandleRequestVote(g.nodes[v], req).1) in g'.net
  {
    var n := g.nodes[s];
    BuiltForItsLog(n, n.races[race].term);
    req := BuildVoteRequest(n, n.races[race].term);
    Go(g0, g, SendVoteRequest(s, v, race));
    var m := Move(g, s, n, {VoteCall(v, race, req)}, g.hist);
    assert m.nodes == g.nodes;
    Go(g0, m, ReceiveVoteRequest(v, race, req));
    g' := AfterVoteRequest(m, v, race, req);
    Arrived(g0, g, g', all);
  }

  lemma CountGo(g0: Global, g: Global, all: set<int>, s: int, v: int, race: nat, req: RequestVoteRequest)
    returns (g': Global)
    requires At(g0, g, all) && s in all && race < |g.nodes[s].races| && g.nodes[s].state == Candidate
    requires req.candidateId == s
    requires VoteReturn(v, race, req, RequestVoteResponse(g.nodes[s].races[race].term, true)) in g.net
    ensures At(g0, g', all) && Only(g, g', s)
    ensures g'.nodes[s] == HandleVoteReply(g.nodes[s], v, race, RequestVoteResponse(g.nodes[s].races[race].term, true))
  {
    var resp := RequestVoteResponse(g.nodes[s].races[race].term, true);
    Go(g0, g, ReceiveVoteReply(s, v, race, req, resp));
    g' := AfterVoteReply(g, s, v, race, resp);
    Arrived(g0, g, g', all);
  }

  lemma StartGo(g0: Global, g: Global, all: set<int>, s: int, race: nat) returns (g': Global)
    requires At(g0, g, all) && s in all && race in g.nodes[s].starting && MayStart(g.nodes[s])
    ensures At(g0, g', all) && Only(g, g', s) && g'.nodes[s] == RunStart(g.nodes[s], race)
  {
    Go(g0, g, StartLeading(s, race));
    g' := AfterStart(g, s, race);
    Arrived(g0, g, g', all);
  }

  lemma SubmitGo(g0: Global, g: Global, all: set<int>, s: int, command: Command) returns (g': Global)
    requires At(g0, g, all) && s in all
    ensures At(g0, g', all) && Only(g, g', s) && g'.nodes[s] == Submit(g.nodes[s], command)
  {
    Go(g0, g, ClientSubmit(s, command));
    g' := AfterSubmit(g, s, command);
    Arrived(g0, g, g', all);
  }

  lemma RoundGo(g0: Global, g: Global, all: set<int>, s: int) returns (g': Global)
    requires At(g0, g, all) && s in all && g.nodes[s].state == Leader
    ensures At(g0, g', all) && Only(g, g', s) && g'.nodes[s] == BeginRound(g.nodes[s])
  {
    Go(g0, g, StartRound(s));
    g' := Move(g, s, BeginRound(g.nodes[s]), {}, g.hist);
    Arrived(g0, g, g', all);
  }

  // A leader sends a peer what it has, and the request is in flight.
  lemma SendGo(g0: Global, g: Global, all: set<int>, s: int, v: int) returns (g': Global, req: AppendEntriesRequest)
    requires At(g0, g, all) && s in all && v in all && s != v
    requires g.nodes[s].state == Leader && g.nodes[s].currentTerm in g.nodes[s].rounds
    ensures 0 <= Lookup(g.nodes[s].nextIndex, v) <= |g.nodes[s].log|
    ensures req == BuildAppendRequest(g.nodes[s], v, g.nodes[s].currentTerm)
    ensures At(g0, g', all) && g'.nodes == g.nodes && g.net <= g'.net && AppendCall(v, req) in g'.net
  {
    var n := g.nodes[s];
    LiveLeader(g, s, v);
    req := BuildAppendRequest(n, v, n.currentTerm);
    Go(g0, g, Step.SendAppend(s, v, n.currentTerm));
    g' := Move(g, s, n, {AppendCall(v, req)}, g.hist);
    assert g'.nodes == g.nodes;
    Arrived(g0, g, g', all);
  }

  lemma LiveLeader(g: Global, s: int, v: int)
    requires Live(g) && s in g.nodes && g.nodes[s].state == Leader && v in g.nodes && v != s
    ensures 0 <= Lookup(g.nodes[s].nextIndex, v) <= |g.nodes[s].log|
    ensures -1 <= Lookup(g.nodes[s].matchIndex, v) < |g.nodes[s].log|
  {
    LiveNode(g, s);
    assert PeerOk(g.hist, g.nodes[s], v);
  }

  lemma ReceiveGo(g0: Global, g: Global, all: set<int>, v: int, req: AppendEntriesRequest) returns (g': Global)
    requires At(g0, g, all) && v in all && AppendCall(v, req) in g.net
    ensures At(g0, g', all) && Only(g, g', v) && g'.nodes[v] == HandleAppendEntries(g.nodes[v], req).0
    ensures AppendReturn(v, req, HandleAppendEntries(g.nodes[v], req).1) in g'.net
  {
    Go(g0, g, ReceiveAppend(v, req));
    g' := AfterAppend(g, v, req);
    Arrived(g0, g, g', all);
  }

  lemma ReplyGo(g0: Global, g: Global, all: set<int>, s: int, v: int,
                req: AppendEntriesRequest, resp: AppendEntriesResponse)
    returns (g': Global)
    requires At(g0, g, all) && s in all && AppendReturn(v, req, resp) in g.net && req.leaderId == s
    requires g.nodes[s].currentTerm == req.term
    ensures At(g0, g', all) && Only(g, g', s) && g'.nodes[s] == HandleAppendReply(g.nodes[s], v, req, resp)
  {
    Go(g0, g, ReceiveAppendReply(s, v, req, resp));
    g' := AfterAppendReply(g, s, v, req, resp);
    Arrived(g0, g, g', all);
  }

  lemma EmitReady(g: Global, s: int)
    requires Live(g) && s in g.nodes
    ensures -1 <= g.nodes[s].lastApplied <= g.nodes[s].commitIndex < |g.nodes[s].log|
  {
    LiveInv(g);
    EmitInRange(g, s);
  }

  lemma SentFields(n: Node)
    requires n.lastApplied <= n.commitIndex
    ensures SendCommits(n) == n.(lastApplied := n.commitIndex)
  {
  }

  lemma EmitGo(g0: Global, g: Global, all: set<int>, s: int) returns (g': Global)
    requires At(g0, g, all) && s in all
    ensures At(g0, g', all) && Only(g, g', s)
    ensures g'.nodes[s] == g.nodes[s].(lastApplied := g.nodes[s].commitIndex)
  {
    EmitReady(g, s);
    SentFields(g.nodes[s]);
    Go(g0, g, EmitCommits(s));
    g' := AfterEmit(g, s);
    Arrived(g0, g, g', all);
  }

  // ---------- somebody is not a leader ----------

  // Two leaders have different terms.
  lemma LeadersDiffer(g: Global, x: int, y: int)
    requires Live(g) && x in g.nodes && y in g.nodes && x != y
    requires g.nodes[x].state == Leader && g.nodes[y].state == Leader
    ensures g.nodes[x].currentTerm != g.nodes[y].currentTerm
  {
    LiveNode(g, x);
    LiveNode(g, y);
  }

  // A leader makes another one of an earlier term step down.
  lemma LowerStepsDown(g0: Global, g: Global, all: set<int>, x: int, y: int) returns (g': Global)
    requires At(g0, g, all) && x in all && y in all && x != y
    requires g.nodes[y].state == Leader && g.nodes[x].currentTerm < g.nodes[y].currentTerm
    ensures At(g0, g', all) && g'.nodes[x].state == Follower
  {
    var req;
    g' := RoundGo(g0, g, all, y);
    g', req := SendGo(g0, g', all, y, x);
    BuiltFields(g'.nodes[y], x, g'.nodes[y].currentTerm);
    AppendReplyTerm(g'.nodes[x], req);
    g' := ReceiveGo(g0, g', all, x, req);
  }

  lemma SomeNonLeader(g0: Global, g: Global, all: set<int>, x: int, y: int) returns (g': Global, z: int)
    requires At(g0, g, all) && x in all && y in all && x != y
    ensures At(g0, g', all) && z in all && g'.nodes[z].state != Leader
  {
    if g.nodes[x].state != Leader {
      g', z := g, x;
    } else if g.nodes[y].state != Leader {
      g', z := g, y;
    } else {
      LeadersDiffer(g, x, y);
      if g.nodes[x].currentTerm < g.nodes[y].currentTerm {
        z := x;
        g' := LowerStepsDown(g0, g, all, x, y);
      } else {
        z := y;
        g' := LowerStepsDown(g0, g, all, y, x);
      }
    }
  }

  // ---------- nobody is a leader, and all are in one term ----------

  lemma {:induction false} TermBound(nodes: map<int, Node>, all: set<int>) returns (t: int)
    requires all <= nodes.Keys
    ensures forall s | s in all :: nodes[s].currentTerm <= t
    decreases |all|
  {
    t := 0;
    if |all| > 0 {
      var s := Pick(all);
      var t1 := TermBound(nodes, all - {s});
      t := Greater(t1, nodes[s].currentTerm);
      forall o | o in all ensures nodes[o].currentTerm <= t {
        if o != s { assert o in all - {s}; }
      }
    }
  }

  // A server that has just started an election.
  predicate Fresh(n: Node, log: Log) {
    && n.state == Candidate && n.log == log && |n.races| > 0
    && n.races[|n.races| - 1] == Race(n.currentTerm, {n.id}) && |n.races| - 1 !in n.starting
  }

  lemma StartsBelow(g: Global, s: int)
    requires Live(g) && s in g.nodes
    ensures |g.nodes[s].races| !in g.nodes[s].starting
  {
    LiveNode(g, s);
  }

  lemma FreshGo(g0: Global, g: Global, all: set<int>, s: int) returns (g': Global)
    requires At(g0, g, all) && s in all && g.nodes[s].state != Leader
    ensures At(g0, g', all) && Only(g, g', s)
    ensures Fresh(g'.nodes[s], g.nodes[s].log) && g'.nodes[s].currentTerm == g.nodes[s].currentTerm + 1
  {
    StartsBelow(g, s);
    g' := TimeoutGo(g0, g, all, s);
  }

  lemma {:induction false} RaiseTerm(g0: Global, g: Global, all: set<int>, s: int, t: int) returns (g': Global)
    requires At(g0, g, all) && s in all && g.nodes[s].state != Leader
    ensures At(g0, g', all) && Only(g, g', s)
    ensures Fresh(g'.nodes[s], g.nodes[s].log) && g'.nodes[s].currentTerm > t
    decreases if g.nodes[s].currentTerm < t then t - g.nodes[s].currentTerm else 0
  {
    g' := FreshGo(g0, g, all, s);
    if g'.nodes[s].currentTerm <= t {
      var g1 := g';
      g' := RaiseTerm(g0, g1, all, s, t);
    }
  }

  predicate FollowsIn(n: Node, t: int) { n.state == Follower && n.currentTerm == t }

  // A candidate asks the servers of a set, which are all behind its term, for their votes.
  lemma {:induction false} TellAll(g0: Global, g: Global, all: set<int>, x: int, rest: set<int>) returns (g': Global)
    requires At(g0, g, all) && x in all && rest <= all - {x} && Fresh(g.nodes[x], g.nodes[x].log)
    requires forall v | v in rest :: g.nodes[v].currentTerm < g.nodes[x].currentTerm
    ensures At(g0, g', all) && g'.nodes[x] == g.nodes[x]
    ensures forall v | v in rest :: FollowsIn(g'.nodes[v], g.nodes[x].currentTerm)
    ensures forall o | o in all && o !in rest :: g'.nodes[o] == g.nodes[o]
    decreases |rest|
  {
    g' := g;
    if |rest| > 0 {
      var v := Pick(rest);
      var g1 := TellGo(g0, g, all, x, v);
      g' := TellAll(g0, g1, all, x, rest - {v});
      forall o | o in rest ensures FollowsIn(g'.nodes[o], g.nodes[x].currentTerm) {
        if o != v { assert o in rest - {v}; }
      }
    }
  }

  lemma TellGo(g0: Global, g: Global, all: set<int>, x: int, v: int) returns (g': Global)
    requires At(g0, g, all) && x in all && v in all && x != v && Fresh(g.nodes[x], g.nodes[x].log)
    requires g.nodes[v].currentTerm < g.nodes[x].currentTerm
    ensures At(g0, g', all) && Only(g, g', v) && FollowsIn(g'.nodes[v], g.nodes[x].currentTerm)
  {
    var req;
    g', req := AskGo(g0, g, all, x, v, |g.nodes[x].races| - 1);
    VoteTerm(g.nodes[v], req);
  }

  lemma VoteTerm(n: Node, req: RequestVoteRequest)
    requires n.currentTerm < req.term
    ensures FollowsIn(HandleRequestVote(n, req).0, req.term)
  {
  }

  ghost predicate Calm(g: Global, all: set<int>, t: int) {
    g.nodes.Keys == all && forall s | s in all :: g.nodes[s].state != Leader && g.nodes[s].currentTerm == t
  }

  lemma CalmFrom(g0: Global, g: Global, all: set<int>, z: int) returns (g': Global, t: int)
    requires At(g0, g, all) && z in all && g.nodes[z].state != Leader
    ensures At(g0, g', all) && Calm(g', all, t)
  {
    var bound := TermBound(g.nodes, all);
    var g1 := RaiseTerm(g0, g, all, z, bound);
    t := g1.nodes[z].currentTerm;
    g' := TellAll(g0, g1, all, z, all - {z});
    forall s | s in all ensures g'.nodes[s].state != Leader && g'.nodes[s].currentTerm == t {
      if s != z { assert s in all - {z}; }
    }
  }

  lemma CalmReached(g0: Global, g: Global, all: set<int>, x: int, y: int) returns (g': Global, t: int)
    requires At(g0, g, all) && x in all && y in all && x != y
    ensures At(g0, g', all) && Calm(g', all, t)
  {
    var g1, z := SomeNonLeader(g0, g, all, x, y);
    g', t := CalmFrom(g0, g1, all, z);
  }

  // ---------- the best server of a majority is elected ----------

  // A candidate of term t that has counted the votes of the given servers.
  ghost predicate Counting(n: Node, t: int, log: Log, voters: set<int>) {
    && n.state == Candidate && n.currentTerm == t && n.log == log && |n.races| > 0
    && n.races[|n.races| - 1] == Race(t, voters)
    && (2 * |voters| > |n.peers| + 1 && |voters| > 1 ==> |n.races| - 1 in n.starting)
  }

  lemma VoteCounted(n: Node, t: int, log: Log, voters: set<int>, v: int)
    requires Counting(n, t, log, voters)
    ensures Counting(HandleVoteReply(n, v, |n.races| - 1, RequestVoteResponse(t, true)), t, log, voters + {v})
  {
    VoteSpawnsIff(n, v, |n.races| - 1);
  }

  // Server v is asked, votes for b, and is counted.
  lemma CollectVote(g0: Global, g: Global, all: set<int>, b: int, t: int, voters: set<int>, v: int) returns (g': Global)
    requires At(g0, g, all) && b in all && v in all && v != b
    requires Counting(g.nodes[b], t, g.nodes[b].log, voters)
    requires g.nodes[v].currentTerm < t && AlwaysVotesFor(g.nodes[v], g.nodes[b])
    ensures At(g0, g', all) && OnlyTwo(g, g', b, v)
    ensures Counting(g'.nodes[b], t, g.nodes[b].log, voters + {v}) && g'.nodes[v].currentTerm == t
  {
    var race := |g.nodes[b].races| - 1;
    var g1, req := AskGo(g0, g, all, b, v, race);
    assert HandleRequestVote(g.nodes[v], req).1 == RequestVoteResponse(t, true);
    VoteTerm(g.nodes[v], req);
    g' := CountGo(g0, g1, all, b, v, race, req);
    VoteCounted(g.nodes[b], t, g.nodes[b].log, voters, v);
  }

  // The servers of a set, none of them in term t yet, will vote for b.
  ghost predicate WillVote(g: Global, b: int, t: int, rest: set<int>)
    requires b in g.nodes && rest <= g.nodes.Keys
  {
    forall v | v in rest :: g.nodes[v].currentTerm < t && AlwaysVotesFor(g.nodes[v], g.nodes[b])
  }

  ghost predicate TermsUpTo(g: Global, all: set<int>, t: int)
    requires all <= g.nodes.Keys
  {
    forall v | v in all :: g.nodes[v].currentTerm <= t
  }

  lemma {:induction false} CollectVotes(g0: Global, g: Global, all: set<int>, b: int, t: int,
                                        voters: set<int>, rest: set<int>)
    returns (g': Global)
    requires At(g0, g, all) && b in all && rest <= all - {b}
    requires Counting(g.nodes[b], t, g.nodes[b].log, voters) && WillVote(g, b, t, rest) && TermsUpTo(g, all, t)
    ensures At(g0, g', all) && Counting(g'.nodes[b], t, g.nodes[b].log, voters + rest) && TermsUpTo(g', all, t)
    decreases |rest|
  {
    g' := g;
    if |rest| > 0 {
      var v := Pick(rest);
      var g1 := CollectVote(g0, g, all, b, t, voters, v);
      StillVoteFor(g, g1, b, v, t, rest);
      StillUpTo(g, g1, all, b, v, t);
      g' := CollectVotes(g0, g1, all, b, t, voters + {v}, rest - {v});
      MoveOver(voters, rest, v);
    } else {
      assert voters + rest == voters;
    }
  }

  lemma StillVoteFor(g: Global, g': Global, b: int, v: int, t: int, rest: set<int>)
    requires b in g.nodes && rest <= g.nodes.Keys && b !in rest && OnlyTwo(g, g', b, v)
    requires g'.nodes[b].log == g.nodes[b].log && g'.nodes[b].id == g.nodes[b].id
    requires WillVote(g, b, t, rest)
    ensures WillVote(g', b, t, rest - {v})
  {
    forall o | o in rest - {v} ensures AlwaysVotesFor(g'.nodes[o], g'.nodes[b]) {
      SameLogSameVotes(g.nodes[o], g.nodes[b], g'.nodes[b]);
    }
  }

  lemma StillUpTo(g: Global, g': Global, all: set<int>, b: int, v: int, t: int)
    requires all <= g.nodes.Keys && b in all && v in all && OnlyTwo(g, g', b, v) && TermsUpTo(g, all, t)
    requires g'.nodes[b].currentTerm <= t && g'.nodes[v].currentTerm <= t
    ensures TermsUpTo(g', all, t)
  {
  }

  lemma SameLogSameVotes(voter: Node, a: Node, b: Node)
    requires AlwaysVotesFor(voter, a) && a.log == b.log && a.id == b.id
    ensures AlwaysVotesFor(voter, b)
  {
  }

  lemma LivePositive(g: Global, s: int)
    requires Live(g) && s in g.nodes
    ensures Positive(g.nodes[s].log)
  {
    LiveNode(g, s);
  }

  lemma BestServer(g: Global, all: set<int>, q: set<int>, s: int) returns (b: int)
    requires Live(g) && g.nodes.Keys == all && s in q && q <= all
    ensures b in q && forall v | v in q :: AlwaysVotesFor(g.nodes[v], g.nodes[b])
  {
    b := BestOf(g.nodes, q, s);
    LivePositive(g, b);
    forall v | v in q ensures AlwaysVotesFor(g.nodes[v], g.nodes[b]) {
      LivePositive(g, v);
      VotesForBest(g.nodes[v], g.nodes[b]);
    }
  }

  // A leader of term t, and the servers of a majority not beyond its term.
  ghost predicate Elected(g: Global, all: set<int>, q: set<int>, b: int, t: int) {
    && g.nodes.Keys == all && b in q && q <= all && g.nodes[b].state == Leader && g.nodes[b].currentTerm == t
    && TermsUpTo(g, q, t)
  }

  // A candidate that has the votes of the majority q.
  ghost predicate Winning(g: Global, all: set<int>, q: set<int>, b: int, t: int) {
    && g.nodes.Keys == all && b in q && q <= all && Counting(g.nodes[b], t, g.nodes[b].log, q)
    && TermsUpTo(g, q, t)
  }

  lemma FreshElection(g0: Global, g: Global, all: set<int>, q: set<int>, b: int, t: int) returns (g': Global)
    requires At(g0, g, all) && Calm(g, all, t) && b in q && q <= all
    requires forall v | v in q :: AlwaysVotesFor(g.nodes[v], g.nodes[b])
    ensures At(g0, g', all) && Counting(g'.nodes[b], t + 1, g'.nodes[b].log, {b})
    ensures WillVote(g', b, t + 1, q - {b}) && TermsUpTo(g', all, t + 1)
  {
    g' := FreshGo(g0, g, all, b);
    forall v | v in q - {b} ensures g'.nodes[v].currentTerm < t + 1 && AlwaysVotesFor(g'.nodes[v], g'.nodes[b]) {
      SameLogSameVotes(g.nodes[v], g.nodes[b], g'.nodes[b]);
    }
  }

  lemma VotesReached(g0: Global, g: Global, all: set<int>, q: set<int>, s: int, t: int) returns (g': Global, b: int)
    requires At(g0, g, all) && Calm(g, all, t) && s in q && q <= all
    ensures At(g0, g', all) && Winning(g', all, q, b, t + 1)
  {
    b := BestServer(g, all, q, s);
    var g1 := FreshElection(g0, g, all, q, b, t);
    g' := CollectVotes(g0, g1, all, b, t + 1, {b}, q - {b});
    SplitOff(q, b);
  }

  lemma WinnerMayStart(n: Node, t: int, all: set<int>, q: set<int>)
    requires Counting(n, t, n.log, q) && Majority(q, all) && |q| > 1 && n.id in all && n.peers == all - {n.id}
    ensures MayStart(n) && |n.races| - 1 in n.starting
  {
    assert all == n.peers + {n.id};
  }

  lemma WinnerLeads(g0: Global, g: Global, all: set<int>, q: set<int>, b: int, t: int) returns (g': Global)
    requires At(g0, g, all) && Winning(g, all, q, b, t) && Majority(q, all) && |q| > 1
    ensures At(g0, g', all) && Elected(g', all, q, b, t)
  {
    var n := g.nodes[b];
    WinnerMayStart(n, t, all, q);
    g' := StartGo(g0, g, all, b, |n.races| - 1);
    LeadersStartOver(n, b, |n.races| - 1, RequestVoteResponse(t, true));
  }

  lemma ElectionReached(g0: Global, g: Global, all: set<int>, q: set<int>, s: int, t: int) returns (g': Global, b: int)
    requires At(g0, g, all) && Calm(g, all, t) && s in q && Majority(q, all) && |q| > 1
    ensures At(g0, g', all) && Elected(g', all, q, b, t + 1)
  {
    var g1;
    g1, b := VotesReached(g0, g, all, q, s, t);
    g' := WinnerLeads(g0, g1, all, q, b, t + 1);
  }

  // ---------- the majority gets the leader's log ----------

  // A leader with an open round and the given log.
  predicate LeadsWith(n: Node, t: int, log: Log) {
    n.state == Leader && n.currentTerm == t && n.log == log && t in n.rounds
  }

  lemma LiveRequest(g: Global, s: int, v: int, req: AppendEntriesRequest)
    requires Live(g) && s in g.nodes && v in g.nodes && AppendCall(v, req) in g.net
    requires g.nodes[s].state == Leader && g.nodes[s].currentTerm == req.term
    ensures HistOk(g.hist) && NodeOk(g.hist, v, g.nodes[v]) && AppendReqOk(g.hist, req) && req.leaderId != v
    ensures req.term in g.hist.leaderLog && g.hist.leaderLog[req.term] == g.nodes[s].log
  {
    LiveNode(g, s);
    LiveNode(g, v);
    LiveMsg(g, AppendCall(v, req));
  }

  lemma TakesLeadersLog(g: Global, s: int, v: int, req: AppendEntriesRequest)
    requires Live(g) && s in g.nodes && v in g.nodes && AppendCall(v, req) in g.net
    requires g.nodes[s].state == Leader && g.nodes[s].currentTerm == req.term && EndOf(req) == |g.nodes[s].log|
    requires HandleAppendEntries(g.nodes[v], req).1.success
    ensures g.nodes[s].log <= HandleAppendEntries(g.nodes[v], req).0.log
    ensures HandleAppendEntries(g.nodes[v], req).0.commitIndex >= req.leaderCommit
  {
    LiveRequest(g, s, v, req);
    TakesCarried(g.hist, v, g.nodes[v], g.nodes[s].log, req);
  }

  lemma TakesCarried(h: History, v: int, n: Node, log: Log, req: AppendEntriesRequest)
    requires HistOk(h) && NodeOk(h, v, n) && AppendReqOk(h, req) && req.leaderId != v
    requires h.leaderLog[req.term] == log && EndOf(req) == |log| && HandleAppendEntries(n, req).1.success
    ensures log <= HandleAppendEntries(n, req).0.log && HandleAppendEntries(n, req).0.commitIndex >= req.leaderCommit
  {
    AcceptedTake(h, v, n, req);
    assert log[..|log|] == log;
  }

  lemma LiveMatches(g: Global, s: int, v: int)
    requires Live(g) && s in g.nodes && v in g.nodes && g.nodes[s].state == Leader
    ensures LogMatching(g.nodes[v].log, g.nodes[s].log)
    ensures -1 <= g.nodes[s].commitIndex < |g.nodes[s].log|
  {
    LiveNode(g, s);
    LiveNode(g, v);
    LiveHist(g);
    LeaderLogMatches(g.hist, g.nodes[v].log, g.nodes[v].currentTerm, g.nodes[s].currentTerm);
  }

  // v has the leader's log, and the leader knows.
  ghost predicate Synced(g: Global, b: int, v: int, t: int, log: Log)
    requires b in g.nodes && v in g.nodes
  {
    && g.nodes[v].currentTerm == t && log <= g.nodes[v].log
    && Lookup(g.nodes[b].matchIndex, v) == |log| - 1 && Lookup(g.nodes[b].nextIndex, v) == |log|
  }

  // What the leader keeps while it deals with v.
  ghost predicate StillLeads(n: Node, n': Node, v: int) {
    && n'.state == Leader && n'.currentTerm == n.currentTerm && n'.log == n.log && n'.rounds == n.rounds
    && (forall p | p != v :: Lookup(n'.matchIndex, p) == Lookup(n.matchIndex, p))
    && (forall p | p != v :: Lookup(n'.nextIndex, p) == Lookup(n.nextIndex, p))
  }

  // A request that v accepts brings v the leader's log.
  lemma AcceptedSync(g0: Global, g: Global, all: set<int>, b: int, v: int, t: int, log: Log, req: AppendEntriesRequest)
    returns (g': Global)
    requires At(g0, g, all) && b in all && v in all && b != v && LeadsWith(g.nodes[b], t, log)
    requires AppendCall(v, req) in g.net && req.leaderId == b && req.term == t && EndOf(req) == |log|
    requires HandleAppendEntries(g.nodes[v], req).1.success
    ensures At(g0, g', all) && OnlyTwo(g, g', b, v)
    ensures StillLeads(g.nodes[b], g'.nodes[b], v) && Synced(g', b, v, t, log)
  {
    var resp := HandleAppendEntries(g.nodes[v], req).1;
    TakesLeadersLog(g, b, v, req);
    AppendReplyTerm(g.nodes[v], req);
    var g1 := ReceiveGo(g0, g, all, v, req);
    CommitsTheGreatest(g1.nodes[b], v, req, resp);
    g' := ReplyGo(g0, g1, all, b, v, req, resp);
    RoundsKept(g1.nodes[b], v, req, resp);
  }

  lemma RoundsKept(n: Node, f: int, req: AppendEntriesRequest, resp: AppendEntriesResponse)
    ensures HandleAppendReply(n, f, req, resp).rounds == n.rounds
  {
  }

  // A rejection makes the leader start over for v.
  lemma RejectedSync(g0: Global, g: Global, all: set<int>, b: int, v: int, t: int, log: Log, req: AppendEntriesRequest)
    returns (g': Global)
    requires At(g0, g, all) && b in all && v in all && b != v && LeadsWith(g.nodes[b], t, log)
    requires AppendCall(v, req) in g.net && req.leaderId == b && req.term == t
    requires g.nodes[v].currentTerm <= t && !HandleAppendEntries(g.nodes[v], req).1.success
    ensures At(g0, g', all) && OnlyTwo(g, g', b, v)
    ensures StillLeads(g.nodes[b], g'.nodes[b], v) && Lookup(g'.nodes[b].nextIndex, v) == 0
    ensures g'.nodes[v].currentTerm == t
  {
    var resp := HandleAppendEntries(g.nodes[v], req).1;
    AppendReplyTerm(g.nodes[v], req);
    var g1 := ReceiveGo(g0, g, all, v, req);
    RejectionToZero(g1, b, v, req, resp);
    g' := ReplyGo(g0, g1, all, b, v, req, resp);
  }

  lemma RejectionToZero(g: Global, s: int, f: int, req: AppendEntriesRequest, resp: AppendEntriesResponse)
    requires Live(g) && s in g.nodes && g.nodes[s].state == Leader && AppendReturn(f, req, resp) in g.net
    requires !resp.success && resp.term == req.term == g.nodes[s].currentTerm
    ensures HandleAppendReply(g.nodes[s], f, req, resp) == g.nodes[s].(nextIndex := g.nodes[s].nextIndex[f := 0])
  {
    LiveNode(g, s);
    LiveMsg(g, AppendReturn(f, req, resp));
    RewindsToZero(g.nodes[s], resp);
  }

  lemma SyncGo(g0: Global, g: Global, all: set<int>, b: int, v: int, t: int, log: Log) returns (g': Global)
    requires At(g0, g, all) && b in all && v in all && b != v && LeadsWith(g.nodes[b], t, log)
    requires g.nodes[v].currentTerm <= t
    ensures At(g0, g', all) && OnlyTwo(g, g', b, v)
    ensures StillLeads(g.nodes[b], g'.nodes[b], v) && Synced(g', b, v, t, log)
  {
    var g1, req := SendGo(g0, g, all, b, v);
    BuiltFields(g1.nodes[b], v, t);
    if HandleAppendEntries(g1.nodes[v], req).1.success {
      g' := AcceptedSync(g0, g1, all, b, v, t, log, req);
    } else {
      var g2 := RejectedSync(g0, g1, all, b, v, t, log, req);
      var g3, whole := SendGo(g0, g2, all, b, v);
      BuiltFields(g3.nodes[b], v, t);
      LiveMatches(g3, b, v);
      FindsFromZero(g3.nodes[v], g3.nodes[b], v, t);
      g' := AcceptedSync(g0, g3, all, b, v, t, log, whole);
    }
  }

  lemma FindsFromZero(n: Node, leader: Node, v: int, t: int)
    requires Lookup(leader.nextIndex, v) == 0 && n.currentTerm <= t
    ensures HandleAppendEntries(n, BuildAppendRequest(leader, v, t)).1.success
  {
  }

  ghost predicate AllSynced(g: Global, b: int, t: int, log: Log, done: set<int>)
    requires b in g.nodes && done <= g.nodes.Keys
  {
    forall v | v in done :: Synced(g, b, v, t, log)
  }

  lemma StillSynced(g: Global, g': Global, b: int, v: int, t: int, log: Log, done: set<int>)
    requires b in g.nodes && v in g.nodes && done <= g.nodes.Keys && b !in done && OnlyTwo(g, g', b, v)
    requires StillLeads(g.nodes[b], g'.nodes[b], v) && Synced(g', b, v, t, log)
    requires AllSynced(g, b, t, log, done)
    ensures AllSynced(g', b, t, log, done + {v})
  {
  }

  // The servers of `rest` get the leader's log, one after the other.
  lemma {:induction false} SyncAll(g0: Global, g: Global, all: set<int>, b: int, t: int, log: Log,
                                   done: set<int>, rest: set<int>)
    returns (g': Global)
    requires At(g0, g, all) && b in all && rest <= all - {b} && done <= all - {b} && LeadsWith(g.nodes[b], t, log)
    requires AllSynced(g, b, t, log, done) && TermsUpTo(g, rest, t)
    ensures At(g0, g', all) && LeadsWith(g'.nodes[b], t, log) && AllSynced(g', b, t, log, done + rest)
    decreases |rest|
  {
    g' := g;
    if |rest| > 0 {
      var v := Pick(rest);
      var g1 := SyncGo(g0, g, all, b, v, t, log);
      StillSynced(g, g1, b, v, t, log, done);
      RestUpTo(g, g1, b, v, t, rest);
      g' := SyncAll(g0, g1, all, b, t, log, done + {v}, rest - {v});
      MoveOver(done, rest, v);
    } else {
      assert done + rest == done;
    }
  }

  lemma RestUpTo(g: Global, g': Global, b: int, v: int, t: int, rest: set<int>)
    requires rest <= g.nodes.Keys && b !in rest && OnlyTwo(g, g', b, v) && TermsUpTo(g, rest, t)
    ensures rest - {v} <= g'.nodes.Keys && TermsUpTo(g', rest - {v}, t)
  {
  }

  // ---------- the majority commits and applies ----------

  lemma LiveCaughtUp(g: Global, s: int)
    requires Live(g) && s in g.nodes && s in g.apps
    ensures CaughtUp(g.nodes[s])
  {
    var run: Run :| run.ValidAndGuarded() && run.states[|run.steps|] == g;
    LeaderIsCaughtUp(run, |run.steps|, s);
  }

  // Once a majority is in step, the leader has committed its last entry, if that is of its own term.
  lemma LeaderCommits(g: Global, all: set<int>, q: set<int>, b: int, t: int, log: Log)
    requires Live(g) && Servers(g, all) && Majority(q, all) && |q| > 1 && b in q && LeadsWith(g.nodes[b], t, log)
    requires |log| > 0 && log[|log| - 1].term == t
    requires AllSynced(g, b, t, log, q - {b})
    ensures g.nodes[b].commitIndex == |log| - 1
  {
    var n := g.nodes[b];
    LiveCaughtUp(g, b);
    LiveMatches(g, b, b);
    forall p | p in q && p != n.id ensures Lookup(n.matchIndex, p) >= |log| - 1 {
      assert p in q - {b};
    }
    assert AllKnown(n, q, |log| - 1) && all == n.peers + {b};
    NotAlone(q, n.peers, b);
    assert MayCommit(n, |log| - 1);
  }

  // A server that has applied the entry at index p.
  predicate HasApplied(n: Node, p: int, e: LogEntry) { 0 <= p < |n.log| && n.log[p] == e && n.lastApplied >= p }

  // One more request tells a server that is in step to commit, and it applies what it committed.
  lemma ApplyGo(g0: Global, g: Global, all: set<int>, b: int, v: int, t: int, log: Log) returns (g': Global)
    requires At(g0, g, all) && b in all && v in all && b != v && LeadsWith(g.nodes[b], t, log)
    requires |log| > 0 && g.nodes[b].commitIndex == |log| - 1 && Synced(g, b, v, t, log)
    ensures At(g0, g', all) && Only(g, g', v) && HasApplied(g'.nodes[v], |log| - 1, log[|log| - 1])
  {
    var g1, req := SendGo(g0, g, all, b, v);
    BuiltFields(g1.nodes[b], v, t);
    LiveMatches(g1, b, v);
    BuiltRequest(g1.nodes[b], v, t);
    FindsPrevious(g1.nodes[v], g1.nodes[b].log, req);
    assert log[..|log|] == log;
    TakesLeadersLog(g1, b, v, req);
    var g2 := ReceiveGo(g0, g1, all, v, req);
    g' := EmitGo(g0, g2, all, v);
  }

  ghost predicate AllApplied(g: Global, done: set<int>, p: int, e: LogEntry)
    requires done <= g.nodes.Keys
  {
    forall v | v in done :: HasApplied(g.nodes[v], p, e)
  }

  lemma StillInStep(g: Global, g': Global, b: int, v: int, t: int, log: Log, done: set<int>, rest: set<int>)
    requires b in g.nodes && v in g.nodes && b != v && done <= g.nodes.Keys && rest <= g.nodes.Keys && Only(g, g', v)
    requires |log| > 0 && AllApplied(g, done, |log| - 1, log[|log| - 1]) && AllSynced(g, b, t, log, rest)
    requires HasApplied(g'.nodes[v], |log| - 1, log[|log| - 1])
    ensures AllApplied(g', done + {v}, |log| - 1, log[|log| - 1]) && AllSynced(g', b, t, log, rest - {v})
  {
  }

  lemma {:induction false} ApplyAll(g0: Global, g: Global, all: set<int>, b: int, t: int, log: Log,
                                    done: set<int>, rest: set<int>)
    returns (g': Global)
    requires At(g0, g, all) && b in all && rest <= all - {b} && done <= all && LeadsWith(g.nodes[b], t, log)
    requires |log| > 0 && g.nodes[b].commitIndex == |log| - 1
    requires AllApplied(g, done, |log| - 1, log[|log| - 1]) && AllSynced(g, b, t, log, rest)
    ensures At(g0, g', all) && AllApplied(g', done + rest, |log| - 1, log[|log| - 1])
    decreases |rest|
  {
    g' := g;
    if |rest| > 0 {
      var v := Pick(rest);
      var g1 := ApplyGo(g0, g, all, b, v, t, log);
      StillInStep(g, g1, b, v, t, log, done, rest);
      g' := ApplyAll(g0, g1, all, b, t, log, done + {v}, rest - {v});
      MoveOver(done, rest, v);
    } else {
      assert done + rest == done;
    }
  }

  // ---------- the whole way ----------

  lemma ServingReached(g0: Global, g: Global, all: set<int>, q: set<int>, b: int, t: int, command: Command)
    returns (g': Global, log: Log)
    requires At(g0, g, all) && Elected(g, all, q, b, t)
    ensures At(g0, g', all) && LeadsWith(g'.nodes[b], t, log) && q <= all && TermsUpTo(g', q, t)
    ensures |log| > 0 && log[|log| - 1] == LogEntry(command, t)
  {
    log := g.nodes[b].log + [LogEntry(command, t)];
    g' := SubmitGo(g0, g, all, b, command);
    g' := RoundGo(g0, g', all, b);
  }

  // A leader that has committed all of its log, and a majority that has that log too.
  ghost predicate InStep(g: Global, all: set<int>, q: set<int>, b: int, t: int, log: Log) {
    && g.nodes.Keys == all && b in q && q <= all && LeadsWith(g.nodes[b], t, log) && |log| > 0
    && g.nodes[b].commitIndex == |log| - 1 && AllSynced(g, b, t, log, q - {b})
  }

  lemma InStepReached(g0: Global, g: Global, all: set<int>, q: set<int>, b: int, t: int, log: Log) returns (g': Global)
    requires At(g0, g, all) && Majority(q, all) && |q| > 1 && b in q && LeadsWith(g.nodes[b], t, log)
    requires |log| > 0 && log[|log| - 1].term == t && TermsUpTo(g, q, t)
    ensures At(g0, g', all) && InStep(g', all, q, b, t, log)
  {
    g' := SyncAll(g0, g, all, b, t, log, {}, q - {b});
    assert {} + (q - {b}) == q - {b};
    LeaderCommits(g', all, q, b, t, log);
  }

  lemma SyncedAnyway(g: Global, g': Global, b: int, t: int, log: Log, rest: set<int>)
    requires b in g.nodes && rest <= g.nodes.Keys && b !in rest && Only(g, g', b) && AllSynced(g, b, t, log, rest)
    requires g'.nodes[b].nextIndex == g.nodes[b].nextIndex && g'.nodes[b].matchIndex == g.nodes[b].matchIndex
    ensures AllSynced(g', b, t, log, rest)
  {
  }

  lemma AllApply(g0: Global, g: Global, all: set<int>, q: set<int>, b: int, t: int, log: Log)
    returns (g': Global, p: nat, e: LogEntry)
    requires At(g0, g, all) && InStep(g, all, q, b, t, log)
    ensures At(g0, g', all) && q <= g'.nodes.Keys && AllApplied(g', q, p, e) && e == log[|log| - 1]
  {
    p, e := |log| - 1, log[|log| - 1];
    var g1 := EmitGo(g0, g, all, b);
    SyncedAnyway(g, g1, b, t, log, q - {b});
    g' := ApplyAll(g0, g1, all, b, t, log, {b}, q - {b});
    SplitOff(q, b);
  }

  lemma CommandInStep(g0: Global, g: Global, all: set<int>, q: set<int>, b: int, t: int, command: Command)
    returns (g': Global, log: Log)
    requires At(g0, g, all) && Majority(q, all) && |q| > 1 && Elected(g, all, q, b, t)
    ensures At(g0, g', all) && InStep(g', all, q, b, t, log) && log[|log| - 1].command == command
  {
    var g1;
    g1, log := ServingReached(g0, g, all, q, b, t, command);
    g' := InStepReached(g0, g1, all, q, b, t, log);
  }

  lemma ElectedServes(g0: Global, g: Global, all: set<int>, q: set<int>, b: int, t: int, command: Command)
    returns (g': Global, p: nat, e: LogEntry)
    requires At(g0, g, all) && Majority(q, all) && |q| > 1 && Elected(g, all, q, b, t)
    ensures At(g0, g', all) && e.command == command && q <= g'.nodes.Keys && AllApplied(g', q, p, e)
  {
    var g1, log := CommandInStep(g0, g, all, q, b, t, command);
    g', p, e := AllApply(g0, g1, all, q, b, t, log);
  }

  lemma SomeoneElected(g0: Global, all: set<int>, q: set<int>) returns (g': Global, b: int, t: int)
    requires At(g0, g0, all) && Majority(q, all) && |q| > 1
    ensures At(g0, g', all) && Elected(g', all, q, b, t)
  {
    var x, y := TwoMembers(q);
    var g1, t1 := CalmReached(g0, g0, all, x, y);
    t := t1 + 1;
    g', b := ElectionReached(g0, g1, all, q, x, t1);
  }

  lemma AppliedReached(g0: Global, all: set<int>, q: set<int>, command: Command)
    returns (g': Global, p: nat, e: LogEntry)
    requires At(g0, g0, all) && Majority(q, all) && |q| > 1
    ensures At(g0, g', all) && e.command == command && q <= g'.nodes.Keys && AllApplied(g', q, p, e)
  {
    var g1, b, t := SomeoneElected(g0, all, q);
    g', p, e := ElectedServes(g0, g1, all, q, b, t, command);
  }

  lemma OnTheStream(g: Global, v: int, p: nat, e: LogEntry)
    requires Live(g) && v in g.nodes && v in g.apps && HasApplied(g.nodes[v], p, e)
    ensures p < |g.apps[v].emitted| && g.apps[v].emitted[p].command == e.command
  {
    LiveInv(g);
    assert StreamOk(g.nodes[v], g.apps[v]);
  }

  lemma EndsLive(run: Run)
    requires run.ValidAndGuarded()
    ensures var g := run.states[|run.steps|]; At(g, g, g.hist.servers)
  {
    FromItself(run.states[|run.steps|]);
    LiveServers(run.states[|run.steps|]);
  }

  // Wherever a checked run stands: the servers of any majority, if it has at least two of them, can
  // go on by checked steps until each of them has handed a new command to its apply stream, all at
  // the same position.
  lemma CommandCanBeApplied(run: Run, q: set<int>, command: Command) returns (g': Global, p: nat)
    requires run.ValidAndGuarded() && Majority(q, run.states[|run.steps|].hist.servers) && |q| > 1
    ensures From(run.states[|run.steps|], g') && q <= g'.nodes.Keys && q <= g'.apps.Keys
    ensures forall v | v in q :: p < |g'.apps[v].emitted| && g'.apps[v].emitted[p].command == command
  {
    var g0 := run.states[|run.steps|];
    var e;
    EndsLive(run);
    g', p, e := AppliedReached(g0, g0.hist.servers, q, command);
    forall v | v in q ensures p < |g'.apps[v].emitted| && g'.apps[v].emitted[p].command == command {
      OnTheStream(g', v, p, e);
    }
  }
}
