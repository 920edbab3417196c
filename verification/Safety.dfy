/**
 Every state of every guarded run satisfies the invariant, and what follows from that for the
 whole run: the safety properties of Raft, between any two moments of it.
 */
module Safety {
  import opened Chat
  import opened Consensus
  import opened Protocol
  import opened Invariants
  import opened Frames
  import opened Elections
  import opened Replication

  // ---------- one step ----------

  lemma CallsOk(g: Global, m: Msg)
    requires Inv(g) && m in g.net
    ensures MsgOk(g.hist, m) && TagOk(g.nodes, m)
  {
  }

  lemma ServerOk(g: Global, s: int)
    requires Inv(g) && s in g.nodes
    ensures NodeOk(g.hist, s, g.nodes[s]) && s in g.apps && StreamOk(g.nodes[s], g.apps[s])
  {
  }

  // A step of server s that sends the given messages and keeps what the invariant says of s.
  ghost predicate Moves(g: Global, g': Global, s: int, sent: set<Msg>) {
    && s in g.nodes && s in g'.nodes
    && g' == Move(g, s, g'.nodes[s], sent, g'.hist)
    && StepOk(g.hist, g'.hist, s, g.nodes[s], g'.nodes[s])
    && NetOk(g'.hist, sent)
  }

  lemma TimeoutMoves(g: Global, s: int)
    requires HistOk(g.hist) && s in g.nodes && NodeOk(g.hist, s, g.nodes[s]) && g.nodes[s].state != Leader
    ensures Moves(g, AfterTimeout(g, s), s, {})
  {
    TimeoutOk(g.hist, s, g.nodes[s]);
  }

  lemma QuietMoves(g: Global, s: int, m: Msg)
    requires HistOk(g.hist) && s in g.nodes && NodeOk(g.hist, s, g.nodes[s]) && MsgOk(g.hist, m)
    ensures Moves(g, Move(g, s, g.nodes[s], {m}, g.hist), s, {m})
  {
    UnmovedOk(g.hist, s, g.nodes[s]);
  }

  lemma VoteRequestMoves(g: Global, s: int, race: nat, req: RequestVoteRequest) returns (sent: set<Msg>)
    requires HistOk(g.hist) && s in g.nodes && NodeOk(g.hist, s, g.nodes[s]) && MsgOk(g.hist, VoteCall(s, race, req))
    ensures Moves(g, AfterVoteRequest(g, s, race, req), s, sent)
  {
    VoteRequestOk(g.hist, s, g.nodes[s], race, req);
    sent := {VoteReturn(s, race, req, HandleRequestVote(g.nodes[s], req).1)};
  }

  lemma VoteReplyMoves(g: Global, s: int, v: int, race: nat, req: RequestVoteRequest, resp: RequestVoteResponse)
    requires HistOk(g.hist) && s in g.nodes && NodeOk(g.hist, s, g.nodes[s])
    requires MsgOk(g.hist, VoteReturn(v, race, req, resp)) && req.candidateId == s
    requires race < |g.nodes[s].races| && g.nodes[s].races[race].term == req.term
    requires KeepsItsTerm(g.nodes[s], race, resp)
    ensures Moves(g, AfterVoteReply(g, s, v, race, resp), s, {})
  {
    VoteReplyOk(g.hist, s, g.nodes[s], v, race, req, resp);
  }

  lemma StartMoves(g: Global, s: int, race: nat)
    requires HistOk(g.hist) && s in g.nodes && NodeOk(g.hist, s, g.nodes[s]) && MayStart(g.nodes[s])
    ensures Moves(g, AfterStart(g, s, race), s, {})
  {
    StartOk(g.hist, s, g.nodes[s], race);
  }

  lemma RoundMoves(g: Global, s: int)
    requires HistOk(g.hist) && s in g.nodes && NodeOk(g.hist, s, g.nodes[s]) && g.nodes[s].state == Leader
    ensures Moves(g, Move(g, s, BeginRound(g.nodes[s]), {}, g.hist), s, {})
  {
    RoundOk(g.hist, s, g.nodes[s]);
    ExtendsReflexive(g.hist, s);
  }

  lemma SubmitMoves(g: Global, s: int, command: Command)
    requires HistOk(g.hist) && s in g.nodes && NodeOk(g.hist, s, g.nodes[s])
    ensures Moves(g, AfterSubmit(g, s, command), s, {})
  {
    SubmitOk(g.hist, s, g.nodes[s], command);
  }

  lemma AppendMoves(g: Global, s: int, req: AppendEntriesRequest) returns (sent: set<Msg>)
    requires HistOk(g.hist) && s in g.nodes && NodeOk(g.hist, s, g.nodes[s]) && MsgOk(g.hist, AppendCall(s, req))
    ensures Moves(g, AfterAppend(g, s, req), s, sent)
  {
    AppendOk(g.hist, s, g.nodes[s], req);
    sent := {AppendReturn(s, req, HandleAppendEntries(g.nodes[s], req).1)};
  }

  lemma AppendReplyMoves(g: Global, s: int, f: int, req: AppendEntriesRequest, resp: AppendEntriesResponse)
    requires HistOk(g.hist) && s in g.nodes && NodeOk(g.hist, s, g.nodes[s])
    requires MsgOk(g.hist, AppendReturn(f, req, resp)) && req.leaderId == s
    requires CountsOwnTerm(g.nodes[s], req, resp)
    ensures Moves(g, AfterAppendReply(g, s, f, req, resp), s, {})
  {
    AppendReplyOk(g.hist, s, g.nodes[s], f, req, resp);
  }

  lemma StepMoves(g: Global, step: Step) returns (sent: set<Msg>)
    requires Inv(g) && Enabled(g, step) && Guarded(g, step) && !step.EmitCommits? && !step.ApplyNext?
    ensures Moves(g, Next(g, step), step.s, sent)
  {
    var s := step.s;
    var n := g.nodes[s];
    ServerOk(g, s);
    sent := {};
    match step {
      case Timeout(_) => TimeoutMoves(g, s);
      case SendVoteRequest(_, dst, race) =>
        var m := VoteCall(dst, race, BuildVoteRequest(n, n.races[race].term));
        BuiltVoteRequestOk(g.hist, s, n, dst, race);
        QuietMoves(g, s, m);
        sent := {m};
      case ReceiveVoteRequest(_, race, req) =>
        CallsOk(g, VoteCall(s, race, req));
        sent := VoteRequestMoves(g, s, race, req);
      case ReceiveVoteReply(_, voter, race, req, resp) =>
        CallsOk(g, VoteReturn(voter, race, req, resp));
        VoteReplyMoves(g, s, voter, race, req, resp);
      case StartLeading(_, race) => StartMoves(g, s, race);
      case ClientSubmit(_, command) => SubmitMoves(g, s, command);
      case StartRound(_) => RoundMoves(g, s);
      case SendAppend(_, dst, _) =>
        var m := AppendCall(dst, BuildAppendRequest(n, dst, n.currentTerm));
        BuiltAppendOk(g.hist, s, n, dst);
        QuietMoves(g, s, m);
        sent := {m};
      case ReceiveAppend(_, req) =>
        CallsOk(g, AppendCall(s, req));
        sent := AppendMoves(g, s, req);
      case ReceiveAppendReply(_, f, req, resp) =>
        CallsOk(g, AppendReturn(f, req, resp));
        AppendReplyMoves(g, s, f, req, resp);
    }
  }

  // ---------- races ----------

  lemma StepRaces(g: Global, step: Step)
    requires Enabled(g, step)
    ensures step.s in Next(g, step).nodes && RacesGrow(g.nodes[step.s], Next(g, step).nodes[step.s])
  {
    var n := g.nodes[step.s];
    match step
    case ReceiveVoteRequest(_, _, req) => assert HandleRequestVote(n, req).0.races == n.races;
    case ReceiveAppend(_, req) => assert HandleAppendEntries(n, req).0.races == n.races;
    case ReceiveAppendReply(_, f, req, resp) => assert HandleAppendReply(n, f, req, resp).races == n.races;
    case _ =>
  }

  lemma MoveTags(g: Global, s: int, n: Node, sent: set<Msg>, h: History)
    requires TagsOk(g.nodes, g.net) && s in g.nodes && RacesGrow(g.nodes[s], n)
    requires forall m | m in sent :: TagOk(g.nodes[s := n], m)
    ensures TagsOk(Move(g, s, n, sent, h).nodes, Move(g, s, n, sent, h).net)
  {
    TagsFrame(g.nodes, g.net, s, n, sent);
  }

  lemma VoteRequestTags(g: Global, s: int, race: nat, req: RequestVoteRequest)
    requires TagsOk(g.nodes, g.net) && s in g.nodes && VoteCall(s, race, req) in g.net
    ensures TagsOk(AfterVoteRequest(g, s, race, req).nodes, AfterVoteRequest(g, s, race, req).net)
  {
    var n := g.nodes[s];
    var n' := HandleRequestVote(n, req).0;
    assert TagOk(g.nodes, VoteCall(s, race, req));
    MoveTags(g, s, n', {VoteReturn(s, race, req, HandleRequestVote(n, req).1)}, AfterVoteRequest(g, s, race, req).hist);
  }

  // Messages about votes name races that there are.
  lemma StepTags(g: Global, step: Step)
    requires TagsOk(g.nodes, g.net) && Enabled(g, step) && g.nodes[step.s].id == step.s
    ensures TagsOk(Next(g, step).nodes, Next(g, step).net)
  {
    var s, n, g' := step.s, g.nodes[step.s], Next(g, step);
    StepRaces(g, step);
    match step {
      case SendVoteRequest(_, dst, race) =>
        assert g.nodes[s := n] == g.nodes;
        MoveTags(g, s, n, {VoteCall(dst, race, BuildVoteRequest(n, n.races[race].term))}, g.hist);
      case ReceiveVoteRequest(_, race, req) => VoteRequestTags(g, s, race, req);
      case ReceiveAppend(_, req) =>
        MoveTags(g, s, g'.nodes[s], {AppendReturn(s, req, HandleAppendEntries(n, req).1)}, g'.hist);
      case SendAppend(_, dst, roundTerm) =>
        MoveTags(g, s, n, {AppendCall(dst, BuildAppendRequest(n, dst, roundTerm))}, g.hist);
      case EmitCommits(_) => MoveTags(g, s, g'.nodes[s], {}, g.hist);
      case ApplyNext(_, _) =>
      case _ => MoveTags(g, s, g'.nodes[s], {}, g'.hist);
    }
  }

  // ---------- the apply stream ----------

  lemma EmittedOk(n: Node, a: App)
    requires StreamOk(n, a) && -1 <= n.lastApplied <= n.commitIndex < |n.log|
    ensures StreamOk(SendCommits(n), a.(emitted := a.emitted + NewlyCommitted(n)))
  {
  }

  lemma NodesSet(h: History, nodes: map<int, Node>, s: int, n: Node)
    requires NodesOk(h, nodes) && NodeOk(h, s, n)
    ensures NodesOk(h, nodes[s := n])
  {
  }

  lemma StreamsSet(nodes: map<int, Node>, apps: map<int, App>, s: int, n: Node, a: App)
    requires StreamsOk(nodes, apps) && s in nodes && StreamOk(n, a)
    ensures StreamsOk(nodes[s := n], apps[s := a])
  {
  }

  lemma EmittedStreams(nodes: map<int, Node>, apps: map<int, App>, s: int)
    requires StreamsOk(nodes, apps) && s in nodes && -1 <= nodes[s].lastApplied <= nodes[s].commitIndex < |nodes[s].log|
    ensures StreamsOk(nodes[s := SendCommits(nodes[s])],
                      apps[s := apps[s].(emitted := apps[s].emitted + NewlyCommitted(nodes[s]))])
  {
    var n, a := nodes[s], apps[s];
    assert StreamOk(n, a);
    EmittedOk(n, a);
    StreamsSet(nodes, apps, s, SendCommits(n), a.(emitted := a.emitted + NewlyCommitted(n)));
  }

  lemma EmittedTags(nodes: map<int, Node>, net: set<Msg>, s: int)
    requires TagsOk(nodes, net) && s in nodes
    ensures TagsOk(nodes[s := SendCommits(nodes[s])], net)
  {
    TagsFrame(nodes, net, s, SendCommits(nodes[s]), {});
    assert net + {} == net;
  }

  // Emitting reads indexes in range.
  lemma EmitInRange(g: Global, s: int)
    requires Inv(g) && s in g.nodes
    ensures s in g.apps && NodeOk(g.hist, s, g.nodes[s])
    ensures -1 <= g.nodes[s].lastApplied <= g.nodes[s].commitIndex < |g.nodes[s].log|
  {
    ServerOk(g, s);
  }

  lemma EmitKeepsInv(g: Global, s: int)
    requires Inv(g) && s in g.nodes && s in g.apps
    requires 0 <= g.nodes[s].lastApplied + 1 && g.nodes[s].commitIndex < |g.nodes[s].log|
    ensures Inv(AfterEmit(g, s))
  {
    EmitInRange(g, s);
    EmittedNodeOk(g.hist, s, g.nodes[s]);
    NodesSet(g.hist, g.nodes, s, SendCommits(g.nodes[s]));
    EmittedTags(g.nodes, g.net, s);
    EmittedStreams(g.nodes, g.apps, s);
  }

  lemma EmittedNodeOk(h: History, s: int, n: Node)
    requires NodeOk(h, s, n)
    ensures NodeOk(h, s, SendCommits(n))
  {
    var n' := SendCommits(n);
    if n.state == Leader {
      forall p | p in n'.peers ensures PeerOk(h, n', p) { assert PeerOk(h, n, p); }
    }
  }

  lemma SameStream(nodes: map<int, Node>, apps: map<int, App>, s: int, a: App)
    requires StreamsOk(nodes, apps) && s in apps && a.emitted == apps[s].emitted
    ensures StreamsOk(nodes, apps[s := a])
  {
    assert StreamOk(nodes[s], apps[s]);
  }

  lemma ApplyKeepsInv(g: Global, s: int, a: App)
    requires Inv(g) && s in g.apps && a.emitted == g.apps[s].emitted
    ensures Inv(g.(apps := g.apps[s := a]))
  {
    SameStream(g.nodes, g.apps, s, a);
  }

  lemma MovedKeepsInv(g: Global, g': Global, s: int, sent: set<Msg>)
    requires Inv(g) && Moves(g, g', s, sent) && TagsOk(g'.nodes, g'.net)
    ensures Inv(g')
  {
    MoveKeepsInv(g, s, g'.nodes[s], sent, g'.hist);
  }

  lemma MoveStepKeepsInv(g: Global, step: Step)
    requires Inv(g) && Enabled(g, step) && Guarded(g, step) && !step.EmitCommits? && !step.ApplyNext?
    ensures Inv(Next(g, step))
  {
    var sent := StepMoves(g, step);
    ServerOk(g, step.s);
    StepTags(g, step);
    MovedKeepsInv(g, Next(g, step), step.s, sent);
  }

  lemma StepKeepsInv(g: Global, step: Step)
    requires Inv(g) && Enabled(g, step) && Guarded(g, step)
    ensures Inv(Next(g, step))
  {
    match step
    case EmitCommits(s) => EmitKeepsInv(g, s);
    case ApplyNext(s, randomId) => ApplyKeepsInv(g, s, Consume(g.apps[s], randomId));
    case _ => MoveStepKeepsInv(g, step);
  }

  // ---------- a run ----------

  lemma {:induction false} RunInv(run: Run, i: nat)
    requires run.ValidAndGuarded() && i < |run.states|
    ensures Inv(run.states[i])
  {
    if i == 0 {
      InitialInv(run.states[0]);
    } else {
      RunInv(run, i - 1);
      assert run.StepAt(i - 1) && run.GuardedAt(i - 1);
      StepKeepsInv(run.states[i - 1], run.steps[i - 1]);
    }
  }

  // The history of a later state has everything that the history of an earlier one has.
  ghost predicate HistoryGrows(h: History, h': History) {
    && h'.servers == h.servers && LogsGrow(h, h') && AcksGrow(h, h')
    && forall t | t in h.elections :: t in h'.elections && h'.elections[t] == h.elections[t]
  }

  ghost predicate ServerKeeps(g: Global, g': Global, s: int)
    requires s in g.nodes && s in g.apps && s in g'.nodes && s in g'.apps
  {
    Keeps(g.nodes[s], g'.nodes[s]) && g.apps[s].emitted <= g'.apps[s].emitted
  }

  ghost predicate Precedes(g: Global, g': Global) {
    && g'.nodes.Keys == g.nodes.Keys && g'.apps.Keys == g.apps.Keys && g.nodes.Keys == g.apps.Keys
    && HistoryGrows(g.hist, g'.hist) && g.net <= g'.net
    && forall s | s in g.nodes :: ServerKeeps(g, g', s)
  }

  ghost predicate Ranged(g: Global) {
    g.nodes.Keys == g.apps.Keys && forall s | s in g.nodes :: Keeps(g.nodes[s], g.nodes[s])
  }

  lemma ServerRanged(g: Global, s: int)
    requires Inv(g) && s in g.nodes
    ensures 0 <= g.nodes[s].commitIndex + 1 <= |g.nodes[s].log|
  {
    assert NodeOk(g.hist, s, g.nodes[s]);
  }

  lemma InvRanged(g: Global)
    requires Inv(g)
    ensures Ranged(g)
  {
    forall s | s in g.nodes ensures Keeps(g.nodes[s], g.nodes[s]) {
      ServerRanged(g, s);
      KeepsItself(g.nodes[s]);
    }
  }

  lemma MovePrecedes(g: Global, g': Global, s: int, sent: set<Msg>)
    requires Ranged(g) && Moves(g, g', s, sent)
    ensures Precedes(g, g')
  {
    forall o | o in g.nodes ensures ServerKeeps(g, g', o) {
      assert Keeps(g.nodes[o], g.nodes[o]);
    }
  }

  lemma EmitPrecedes(g: Global, s: int)
    requires Ranged(g) && s in g.nodes && s in g.apps
    requires 0 <= g.nodes[s].lastApplied + 1 && g.nodes[s].commitIndex < |g.nodes[s].log|
    ensures Precedes(g, AfterEmit(g, s))
  {
    forall o | o in g.nodes ensures ServerKeeps(g, AfterEmit(g, s), o) {
      assert Keeps(g.nodes[o], g.nodes[o]);
    }
  }

  lemma ApplyPrecedes(g: Global, s: int, a: App)
    requires Ranged(g) && s in g.nodes && s in g.apps && a.emitted == g.apps[s].emitted
    ensures Precedes(g, g.(apps := g.apps[s := a]))
  {
    forall o | o in g.nodes ensures ServerKeeps(g, g.(apps := g.apps[s := a]), o) {
      assert Keeps(g.nodes[o], g.nodes[o]);
    }
  }

  lemma StepPrecedes(g: Global, step: Step)
    requires Inv(g) && Enabled(g, step) && Guarded(g, step)
    ensures Precedes(g, Next(g, step))
  {
    InvRanged(g);
    match step
    case EmitCommits(s) => EmitPrecedes(g, s);
    case ApplyNext(s, randomId) => ApplyPrecedes(g, s, Consume(g.apps[s], randomId));
    case _ =>
      var sent := StepMoves(g, step);
      MovePrecedes(g, Next(g, step), step.s, sent);
  }

  lemma ServerKeepsTransitive(a: Global, b: Global, c: Global, s: int)
    requires s in a.nodes && s in a.apps && s in b.nodes && s in b.apps && s in c.nodes && s in c.apps
    requires ServerKeeps(a, b, s) && ServerKeeps(b, c, s)
    ensures ServerKeeps(a, c, s)
  {
    var n := a.nodes[s];
    assert n.log[..n.commitIndex + 1] <= b.nodes[s].log[..b.nodes[s].commitIndex + 1];
  }

  lemma HistoryGrowsTransitive(a: History, b: History, c: History)
    requires HistoryGrows(a, b) && HistoryGrows(b, c)
    ensures HistoryGrows(a, c)
  {
    forall t | t in a.leaderLog ensures t in c.leaderLog && GrowsInTerm(t, a.leaderLog[t], c.leaderLog[t]) {
      GrowsTransitive(t, a.leaderLog[t], b.leaderLog[t], c.leaderLog[t]);
    }
    forall s, t ensures AckLen(a, s, t) <= AckLen(c, s, t) {
      assert AckLen(a, s, t) <= AckLen(b, s, t) <= AckLen(c, s, t);
    }
  }

  lemma PrecedesTransitive(a: Global, b: Global, c: Global)
    requires Precedes(a, b) && Precedes(b, c)
    ensures Precedes(a, c)
  {
    HistoryGrowsTransitive(a.hist, b.hist, c.hist);
    forall s | s in a.nodes ensures ServerKeeps(a, c, s) { ServerKeepsTransitive(a, b, c, s); }
  }

  lemma PrecedesReflexive(g: Global)
    requires Ranged(g)
    ensures Precedes(g, g)
  {
    forall s | s in g.nodes ensures ServerKeeps(g, g, s) {
      assert Keeps(g.nodes[s], g.nodes[s]);
    }
  }

  lemma RunStepPrecedes(run: Run, i: nat)
    requires run.ValidAndGuarded() && i < |run.steps|
    ensures Precedes(run.states[i], run.states[i + 1])
  {
    RunInv(run, i);
    assert run.StepAt(i) && run.GuardedAt(i);
    StepPrecedes(run.states[i], run.steps[i]);
  }

  lemma RunSelfPrecedes(run: Run, i: nat)
    requires run.ValidAndGuarded() && i < |run.states|
    ensures Precedes(run.states[i], run.states[i])
  {
    RunInv(run, i);
    InvRanged(run.states[i]);
    PrecedesReflexive(run.states[i]);
  }

  lemma {:induction false} RunPrecedes(run: Run, i: nat, j: nat)
    requires run.ValidAndGuarded() && i <= j < |run.states|
    ensures Precedes(run.states[i], run.states[j])
    decreases j
  {
    if i == j {
      RunSelfPrecedes(run, i);
    } else {
      RunPrecedes(run, i, j - 1);
      RunStepPrecedes(run, j - 1);
      PrecedesTransitive(run.states[i], run.states[j - 1], run.states[j]);
    }
  }
}
