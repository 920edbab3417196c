/**
 The cluster: any finite set of servers, a network that may lose, delay, reorder and repeat
 messages, and one step for every section of code that runs under a server's mutex.

 Sections between which the code releases the lock are steps of their own: a winning vote only
 spawns the start of leadership, which runs at any later time, and a request is built some time
 after the check that its sender is the leader.

 Enabled says when the code takes a step. Guarded adds four checks that the code leaves out.
 */
module Protocol {
  import opened Chat
  import opened Logs
  import opened Consensus
  import ChatMachine

  // A return message carries the request it answers, and messages about votes the race they belong
  // to: the goroutine that sent the request still holds both.
  datatype Msg =
    | VoteCall(dst: int, race: nat, voteReq: RequestVoteRequest)
    | VoteReturn(voter: int, race: nat, voteReq: RequestVoteRequest, voteResp: RequestVoteResponse)
    | AppendCall(dst: int, appendReq: AppendEntriesRequest)
    | AppendReturn(follower: int, appendReq: AppendEntriesRequest, appendResp: AppendEntriesResponse)

  // What one server has emitted on its commit channel, how much of it is applied, and the result.
  datatype App = App(emitted: seq<CommitEntry>, consumed: nat, store: Store)

  // ---------- history ----------
  // Records of past events. No step of the protocol reads them.

  datatype At = At(server: int, term: int)
  datatype Ballot = Ballot(voter: int, term: int, candidate: int)
  datatype Election = Election(leader: int, log: Log, voters: map<int, Log>)

  datatype History = History(
    servers: set<int>,
    // who won a term, with the logs that the winner and its voters had
    elections: map<int, Election>,
    // the log of the leader of a term, at its greatest extent
    leaderLog: map<int, Log>,
    // every vote granted to another server, with the voter's log
    ballots: map<Ballot, Log>,
    // every candidacy, with the candidate's log, and the candidacies that are over
    candidacies: map<At, Log>,
    closed: set<At>,
    // how much of the log of the leader of a term a server has acknowledged
    acks: map<At, nat>)

  function AckLen(h: History, server: int, term: int): nat {
    if At(server, term) in h.acks then h.acks[At(server, term)] else 0
  }

  // A candidacy ends when the server is no longer a candidate of that term.
  function Close(h: History, n: Node, n': Node): History {
    if n.state == Candidate && !(n'.state == Candidate && n'.currentTerm == n.currentTerm)
    then h.(closed := h.closed + {At(n.id, n.currentTerm)}) else h
  }

  function RecordCandidacy(h: History, n: Node): History {
    h.(candidacies := h.candidacies[At(n.id, n.currentTerm) := n.log])
  }

  function RecordBallot(h: History, b: Ballot, log: Log): History {
    if b in h.ballots then h else h.(ballots := h.ballots[b := log])
  }

  function RecordAck(h: History, server: int, term: int, len: nat): History {
    if len <= AckLen(h, server, term) then h else h.(acks := h.acks[At(server, term) := len])
  }

  function RecordLeaderLog(h: History, n: Node): History {
    h.(leaderLog := h.leaderLog[n.currentTerm := n.log], acks := h.acks[At(n.id, n.currentTerm) := |n.log|])
  }

  // The log a voter had when it voted for n in n's term.
  function VoterLog(h: History, n: Node, v: int): Log {
    var b := Ballot(v, n.currentTerm, n.id);
    if v != n.id && b in h.ballots then h.ballots[b] else n.log
  }

  // The voters of the race that the server started last.
  function PresentVoters(n: Node): set<int> {
    if |n.races| > 0 then n.races[|n.races| - 1].voters else {}
  }

  function RecordElection(h: History, n: Node): History {
    h.(elections := h.elections[n.currentTerm :=
        Election(n.id, n.log, map v | v in PresentVoters(n) :: VoterLog(h, n, v))])
  }

  // The history when candidate n, which holds a majority, becomes leader.
  function HistoryOfWin(h: History, n: Node): History {
    RecordLeaderLog(RecordElection(h.(closed := h.closed + {At(n.id, n.currentTerm)}), n), n)
  }

  // The history after a start of leadership.
  function HistoryOfStart(h: History, n: Node): History {
    if n.state == Candidate then HistoryOfWin(h, n) else h
  }

  // The history after a vote request.
  function HistoryOfVote(h: History, n: Node, n': Node, req: RequestVoteRequest, granted: bool): History {
    var h1 := Close(h, n, n');
    if granted then RecordBallot(h1, Ballot(n.id, req.term, req.candidateId), n.log) else h1
  }

  // The history after an AppendEntries request.
  function HistoryOfAppend(h: History, n: Node, n': Node, req: AppendEntriesRequest, success: bool): History {
    var h1 := Close(h, n, n');
    if success && EndOf(req) >= 0 then RecordAck(h1, n.id, req.term, EndOf(req)) else h1
  }

  // ---------- the cluster ----------

  datatype Global = Global(nodes: map<int, Node>, apps: map<int, App>, net: set<Msg>, hist: History)

  datatype Step =
    | Timeout(s: int)
    | SendVoteRequest(s: int, dst: int, race: nat)
    | ReceiveVoteRequest(s: int, race: nat, req: RequestVoteRequest)
    | ReceiveVoteReply(s: int, voter: int, race: nat, req: RequestVoteRequest, resp: RequestVoteResponse)
    | StartLeading(s: int, race: nat)
    | ClientSubmit(s: int, command: Command)
    | StartRound(s: int)
    | SendAppend(s: int, dst: int, roundTerm: int)
    | ReceiveAppend(s: int, areq: AppendEntriesRequest)
    | ReceiveAppendReply(s: int, follower: int, areq: AppendEntriesRequest, aresp: AppendEntriesResponse)
    | EmitCommits(s: int)
    | ApplyNext(s: int, randomId: UInt32)

  // Where an index is out of range the original panics, and there is no step here. A step that makes
  // its check never gets there (CheckedBuildInRange), one that fails it may (BuildOutOfRangeWithoutGuard).
  predicate Enabled(g: Global, step: Step) {
    && step.s in g.nodes
    && step.s in g.apps
    && var n := g.nodes[step.s];
    match step
    case Timeout(_) => n.state != Leader
    case SendVoteRequest(_, dst, race) => dst in n.peers && race < |n.races|
    case ReceiveVoteRequest(s, race, req) => VoteCall(s, race, req) in g.net
    case ReceiveVoteReply(s, voter, race, req, resp) =>
      VoteReturn(voter, race, req, resp) in g.net && req.candidateId == s && race < |n.races|
    case StartLeading(_, race) => race in n.starting
    case ClientSubmit(_, _) => true
    case StartRound(_) => n.state == Leader
    case SendAppend(_, dst, roundTerm) =>
      dst in n.peers && roundTerm in n.rounds && 0 <= Lookup(n.nextIndex, dst) <= |n.log|
    case ReceiveAppend(s, req) => AppendCall(s, req) in g.net
    case ReceiveAppendReply(s, follower, req, resp) => AppendReturn(follower, req, resp) in g.net && req.leaderId == s
    case EmitCommits(_) => 0 <= n.lastApplied + 1 && n.commitIndex < |n.log|
    case ApplyNext(s, _) => g.apps[s].consumed < |g.apps[s].emitted|
  }

  predicate Guarded(g: Global, step: Step)
    requires Enabled(g, step)
  {
    var n := g.nodes[step.s];
    match step
    case ReceiveVoteReply(_, _, race, _, resp) => KeepsItsTerm(n, race, resp)
    case StartLeading(_, _) => MayStart(n)
    case SendAppend(_, _, roundTerm) => LeadsRound(n, roundTerm)
    case ReceiveAppendReply(_, _, req, resp) => CountsOwnTerm(n, req, resp)
    case _ => true
  }

  // Server s moves to n, sends the given messages, and the history becomes h.
  function Move(g: Global, s: int, n: Node, sent: set<Msg>, h: History): Global {
    g.(nodes := g.nodes[s := n], net := g.net + sent, hist := h)
  }

  function AfterTimeout(g: Global, s: int): Global
    requires s in g.nodes
  {
    var n := g.nodes[s];
    var n' := StartElection(n);
    Move(g, s, n', {}, RecordCandidacy(Close(g.hist, n, n'), n'))
  }

  function AfterVoteRequest(g: Global, s: int, race: nat, req: RequestVoteRequest): Global
    requires s in g.nodes
  {
    var n := g.nodes[s];
    var (n', resp) := HandleRequestVote(n, req);
    Move(g, s, n', {VoteReturn(s, race, req, resp)}, HistoryOfVote(g.hist, n, n', req, resp.voteGranted))
  }

  function AfterVoteReply(g: Global, s: int, voter: int, race: nat, resp: RequestVoteResponse): Global
    requires s in g.nodes && race < |g.nodes[s].races|
  {
    var n := g.nodes[s];
    var n' := HandleVoteReply(n, voter, race, resp);
    Move(g, s, n', {}, Close(g.hist, n, n'))
  }

  function AfterStart(g: Global, s: int, race: nat): Global
    requires s in g.nodes
  {
    Move(g, s, RunStart(g.nodes[s], race), {}, HistoryOfStart(g.hist, g.nodes[s]))
  }

  function AfterSubmit(g: Global, s: int, command: Command): Global
    requires s in g.nodes
  {
    var n := g.nodes[s];
    var n' := Submit(n, command);
    Move(g, s, n', {}, if n.state == Leader then RecordLeaderLog(g.hist, n') else g.hist)
  }

  function AfterAppend(g: Global, s: int, req: AppendEntriesRequest): Global
    requires s in g.nodes
  {
    var n := g.nodes[s];
    var (n', resp) := HandleAppendEntries(n, req);
    Move(g, s, n', {AppendReturn(s, req, resp)}, HistoryOfAppend(g.hist, n, n', req, resp.success))
  }

  function AfterAppendReply(g: Global, s: int, f: int, req: AppendEntriesRequest, resp: AppendEntriesResponse): Global
    requires s in g.nodes
  {
    var n := g.nodes[s];
    var n' := HandleAppendReply(n, f, req, resp);
    Move(g, s, n', {}, Close(g.hist, n, n'))
  }

  function AfterEmit(g: Global, s: int): Global
    requires s in g.nodes && s in g.apps && 0 <= g.nodes[s].lastApplied + 1 && g.nodes[s].commitIndex < |g.nodes[s].log|
  {
    var n, a := g.nodes[s], g.apps[s];
    g.(nodes := g.nodes[s := SendCommits(n)],
       apps := g.apps[s := a.(emitted := a.emitted + NewlyCommitted(n))])
  }

  function Consume(a: App, randomId: UInt32): App
    requires a.consumed < |a.emitted|
  {
    a.(consumed := a.consumed + 1,
       store := ChatMachine.Apply(a.store, a.emitted[a.consumed].command, randomId))
  }

  function AfterApply(g: Global, s: int, randomId: UInt32): Global
    requires s in g.apps && g.apps[s].consumed < |g.apps[s].emitted|
  {
    g.(apps := g.apps[s := Consume(g.apps[s], randomId)])
  }

  function Next(g: Global, step: Step): Global
    requires Enabled(g, step)
  {
    var n := g.nodes[step.s];
    match step
    case Timeout(s) => AfterTimeout(g, s)
    case SendVoteRequest(s, dst, race) =>
      Move(g, s, n, {VoteCall(dst, race, BuildVoteRequest(n, n.races[race].term))}, g.hist)
    case ReceiveVoteRequest(s, race, req) => AfterVoteRequest(g, s, race, req)
    case ReceiveVoteReply(s, voter, race, _, resp) => AfterVoteReply(g, s, voter, race, resp)
    case StartLeading(s, race) => AfterStart(g, s, race)
    case ClientSubmit(s, command) => AfterSubmit(g, s, command)
    case StartRound(s) => Move(g, s, BeginRound(n), {}, g.hist)
    case SendAppend(s, dst, roundTerm) =>
      Move(g, s, n, {AppendCall(dst, BuildAppendRequest(n, dst, roundTerm))}, g.hist)
    case ReceiveAppend(s, req) => AfterAppend(g, s, req)
    case ReceiveAppendReply(s, f, req, resp) => AfterAppendReply(g, s, f, req, resp)
    case EmitCommits(s) => AfterEmit(g, s)
    case ApplyNext(s, randomId) => AfterApply(g, s, randomId)
  }

  // The history is for the proofs only: whatever it says, the same steps are enabled and pass the
  // checks, and they do the same to servers, streams and network.
  lemma HistoryIsNeverRead(g: Global, h: History, step: Step)
    ensures var other := g.(hist := h);
            && (Enabled(other, step) <==> Enabled(g, step))
            && (Enabled(g, step) ==>
                  && (Guarded(other, step) <==> Guarded(g, step))
                  && Next(other, step) == Next(g, step).(hist := Next(other, step).hist))
  {
  }

  predicate InitialNode(n: Node, s: int, servers: set<int>) { n == Consensus.Init(s, servers - {s}) }

  predicate Initial(g: Global) {
    && (forall s | s in g.hist.servers :: s >= 0)
    && g.nodes.Keys == g.hist.servers && g.apps.Keys == g.hist.servers
    && (forall s | s in g.nodes :: InitialNode(g.nodes[s], s, g.hist.servers))
    && (forall s | s in g.apps :: g.apps[s] == App([], 0, map[]))
    && g.net == {}
    && g.hist == History(g.hist.servers, map[], map[], map[], map[], {}, map[])
  }

  // A run: the states visited and the steps between them.
  datatype Run = Run(states: seq<Global>, steps: seq<Step>) {
    ghost predicate StepAt(i: nat)
      requires i < |steps| && |states| == |steps| + 1
    {
      Enabled(states[i], steps[i]) && states[i + 1] == Next(states[i], steps[i])
    }

    ghost predicate Valid() {
      |states| == |steps| + 1 && Initial(states[0]) && forall i: nat | i < |steps| :: StepAt(i)
    }

    ghost predicate GuardedAt(i: nat)
      requires i < |steps| && |states| == |steps| + 1 && StepAt(i)
    {
      Guarded(states[i], steps[i])
    }

    ghost predicate ValidAndGuarded() {
      Valid() && forall i: nat | i < |steps| :: GuardedAt(i)
    }
  }
}
